/** The event bus scheme (EventSchemeImpl): splitting an event address into
    its pod name and sub-path, and the table that gives each address one
    event node, created on first lookup. */
module EventScheme {
  import opened Wrappers
  import opened JavaLang

  /** Where the pod name starts: just after the first "://", or -1. */
  function PodStart(address: string): (r: int)
    ensures r == -1 || (3 <= r <= |address| && address[r - 3..r] == "://")
    ensures r != -1 ==> forall k :: 0 <= k < r - 3 ==> !MatchesAt(address, "://", k)
    ensures r == -1 ==> forall k :: 0 <= k ==> !MatchesAt(address, "://", k)
  {
    var p := IndexOf(address, "://", 0);
    if p < 0 then -1 else p + 3
  }

  /** `tail` cut at its first '/': `head` holds no '/' and is followed by
      the end of `tail` or by a '/'. */
  predicate CutAtSlash(tail: string, head: string)
  {
    |head| <= |tail| && tail[..|head|] == head && '/' !in head
    && (|head| == |tail| || tail[|head|] == '/')
  }

  /** The cut is unique. */
  lemma CutAtSlashUnique(tail: string, h1: string, h2: string)
    requires CutAtSlash(tail, h1) && CutAtSlash(tail, h2)
    ensures h1 == h2
  {
  }

  /**
   * getPodName: "" when the address has no "://"; otherwise the text after
   * the first "://" up to the next '/', or all of that text if there is no
   * further '/'.
   */
  function PodName(address: string): (r: string)
    ensures PodStart(address) == -1 ==> r == ""
    ensures PodStart(address) != -1 ==> CutAtSlash(address[PodStart(address)..], r)
  {
    var p := PodStart(address);
    if p < 0 then ""
    else
      var q := IndexOfChar(address, '/', p);
      if q > 0 then address[p..q] else address[p..]
  }

  /**
   * getSubPath: the whole address when it has no "://"; otherwise the
   * suffix from the first '/' after "://".  When there is no such '/',
   * `substring(-1)` throws.
   */
  function SubPath(address: string): (r: Result<string, Exception>)
    ensures PodStart(address) == -1 ==> r == Ok(address)
    ensures PodStart(address) != -1 ==> (r.Ok? <==> '/' in address[PodStart(address)..])
    ensures PodStart(address) != -1 && r.Ok? ==> r.value != [] && r.value[0] == '/'
    ensures r.Err? ==> r.error == StringIndexOutOfBounds
  {
    var p := PodStart(address);
    if p < 0 then Ok(address)
    else
      var q := IndexOfChar(address, '/', p);
      if q < 0 then
        assert forall k :: 0 <= k < |address[p..]| ==> address[p..][k] == address[p + k];
        Err(StringIndexOutOfBounds)
      else
        assert address[p..][q - p] == '/';
        Ok(address[q..])
  }

  /** Pod name and sub-path put back together give the text after "://". */
  lemma PodNameThenSubPath(address: string)
    requires PodStart(address) != -1 && SubPath(address).Ok?
    ensures PodName(address) + SubPath(address).value == address[PodStart(address)..]
  {
    var p := PodStart(address);
    var q := IndexOfChar(address, '/', p);
    assert p <= q;
    assert PodName(address) == address[p..q];
    assert SubPath(address).value == address[q..];
    assert address[p..q] + address[q..] == address[p..];
  }

  /** The three kinds of node the table creates. */
  datatype NodeKind = Plain | Server | Client

  /** An event node: its kind, the pod it belongs to and its address. */
  datatype Node = Node(kind: NodeKind, pod: string, address: string)

  /** What the pod server reports: its pod node's index, when it has a pod
      node, and the name of its pod. */
  datatype PodView = PodView(nodeIndex: Option<int>, podName: string)

  /** isLocalPod: the empty pod, a server without a pod node, or the pod the
      server is primary (index 0) for. */
  predicate IsLocalPod(podName: string, view: PodView)
  {
    podName == "" || view.nodeIndex.None?
    || (view.nodeIndex.value == 0 && podName == view.podName)
  }

  /** The kind of node made for an address in the given pod. */
  function KindFor(podName: string, view: PodView): (k: NodeKind)
    ensures k == Plain <==> podName == ""
    ensures k == Server <==> podName != "" && IsLocalPod(podName, view)
    ensures k == Client <==> !IsLocalPod(podName, view)
  {
    if podName == "" then Plain
    else if IsLocalPod(podName, view) then Server
    else Client
  }

  class EventSchemeImpl {
    /** `_address`: the prefix put in front of looked-up paths. */
    const address: string
    /** `_pubSubNodeMap`. */
    var nodes: map<string, Node>

    /** Every recorded node was made for the address it is recorded under. */
    ghost predicate Valid()
      reads this
    {
      forall k :: k in nodes ==> nodes[k].address == k && nodes[k].pod == PodName(k)
    }

    /** The scheme for the default address "event:". */
    constructor Default()
      ensures Valid() && address == "event:" && nodes == map[]
    {
      address := "event:";
      nodes := map[];
    }

    constructor (address: string)
      ensures Valid() && this.address == address && nodes == map[]
    {
      this.address := address;
      nodes := map[];
    }

    /** The public constructor's null check: a missing address throws
        NullPointerException before any scheme exists. */
    static method Create(address: Option<string>) returns (r: Result<EventSchemeImpl, Exception>)
      ensures address == None <==> r == Err(NullPointer)
      ensures r.Err? ==> r.error == NullPointer
      ensures r.Ok? ==> fresh(r.value) && r.value.Valid()
      ensures r.Ok? ==> Some(r.value.address) == address && r.value.nodes == map[]
    {
      if address == None {
        return Err(NullPointer);
      }
      var scheme := new EventSchemeImpl(address.value);
      r := Ok(scheme);
    }

    /** getName. */
    function Name(): (r: string)
      ensures r == address
    {
      address
    }

    /**
     * lookupPubSubNode: the node already recorded for `key`, or a new one of
     * the kind its pod calls for, recorded for next time.  Existing entries
     * are never replaced.  Fails, recording nothing, when the sub-path of
     * `key` cannot be taken.
     */
    method LookupPubSubNode(key: string, view: PodView) returns (r: Result<Node, Exception>)
      requires Valid()
      modifies this
      ensures Valid()
      ensures SubPath(key).Err? ==> r == Err(StringIndexOutOfBounds) && nodes == old(nodes)
      ensures SubPath(key).Ok? && key in old(nodes) ==> r == Ok(old(nodes)[key]) && nodes == old(nodes)
      ensures SubPath(key).Ok? && key !in old(nodes) ==>
                r == Ok(Node(KindFor(PodName(key), view), PodName(key), key))
                && nodes == old(nodes)[key := r.value]
      ensures forall k :: k in old(nodes) ==> k in nodes && nodes[k] == old(nodes)[k]
      ensures r.Ok? ==> key in nodes && nodes[key] == r.value
    {
      var podName := PodName(key);
      var path := SubPath(key);
      if path.Err? {
        return Err(path.error);
      }
      if key in nodes {
        return Ok(nodes[key]);
      }
      var node := Node(KindFor(podName, view), podName, key);
      nodes := nodes[key := node];
      r := Ok(node);
    }

    /** onLookup: looks up the node for the scheme address followed by
        `path`, through lookupPath. */
    method OnLookup(path: string, view: PodView) returns (r: Result<Node, Exception>)
      requires Valid()
      modifies this
      ensures Valid()
      ensures var key := address + path;
        SubPath(key).Err? ==> r == Err(StringIndexOutOfBounds) && nodes == old(nodes)
      ensures var key := address + path;
        SubPath(key).Ok? && key in old(nodes) ==> r == Ok(old(nodes)[key]) && nodes == old(nodes)
      ensures var key := address + path;
        SubPath(key).Ok? && key !in old(nodes) ==>
          r == Ok(Node(KindFor(PodName(key), view), PodName(key), key))
          && nodes == old(nodes)[key := r.value]
      ensures forall k :: k in old(nodes) ==> k in nodes && nodes[k] == old(nodes)[k]
      ensures r.Ok? ==> address + path in nodes && nodes[address + path] == r.value
    {
      r := LookupPath(address + path, view);
    }

    /** lookupPath: the pub/sub node for a full address. */
    method LookupPath(key: string, view: PodView) returns (r: Result<Node, Exception>)
      requires Valid()
      modifies this
      ensures Valid()
      ensures SubPath(key).Err? ==> r == Err(StringIndexOutOfBounds) && nodes == old(nodes)
      ensures SubPath(key).Ok? && key in old(nodes) ==> r == Ok(old(nodes)[key]) && nodes == old(nodes)
      ensures SubPath(key).Ok? && key !in old(nodes) ==>
                r == Ok(Node(KindFor(PodName(key), view), PodName(key), key))
                && nodes == old(nodes)[key := r.value]
      ensures forall k :: k in old(nodes) ==> k in nodes && nodes[k] == old(nodes)[k]
      ensures r.Ok? ==> key in nodes && nodes[key] == r.value
    {
      r := LookupPubSubNode(key, view);
    }
  }

  /** Looking an address up twice gives the same node, even if the pod
      server's view changed in between. */
  method LookupIsMemoised(key: string, v1: PodView, v2: PodView) returns (a: Result<Node, Exception>, b: Result<Node, Exception>)
    ensures a == b
    ensures a.Ok? <==> SubPath(key).Ok?
  {
    var scheme := new EventSchemeImpl("event:");
    a := scheme.LookupPubSubNode(key, v1);
    b := scheme.LookupPubSubNode(key, v2);
  }
}
