/** Ordering classes by their @Priority annotation (Priorities.compare). */
module Priorities {
  import opened JavaLang

  /** A class as compare sees it: its name and, when it is annotated with
      @Priority, the annotation's int value. */
  datatype ClassInfo = ClassInfo(name: string, priority: PriorityValue)

  datatype PriorityValue = Unannotated | Priority(value: int)

  /** The classes' priorities are Java ints. */
  predicate WellFormed(c: ClassInfo)
  {
    c.priority.Priority? ==> IsInt(c.priority.value)
  }

  /**
   * compare(Class, Class): an annotated class comes before an unannotated
   * one; two unannotated classes compare by name; two annotated classes by
   * the 32-bit difference of their priorities, and by name when it is 0.
   */
  function Compare(a: ClassInfo, b: ClassInfo): (r: int)
    ensures a.priority.Priority? && b.priority.Unannotated? ==> r == -1
    ensures a.priority.Unannotated? && b.priority.Priority? ==> r == 1
    ensures a.priority.Unannotated? && b.priority.Unannotated? ==> r == CompareTo(a.name, b.name)
    ensures a.priority.Priority? && b.priority.Priority? ==>
              r == (if Wrap32(a.priority.value - b.priority.value) != 0
                    then Wrap32(a.priority.value - b.priority.value)
                    else CompareTo(a.name, b.name))
  {
    match (a.priority, b.priority)
    case (Priority(_), Unannotated) => -1
    case (Unannotated, Priority(_)) => 1
    case (Unannotated, Unannotated) => CompareTo(a.name, b.name)
    case (Priority(pa), Priority(pb)) =>
      var cmp := Wrap32(pa - pb);
      if cmp != 0 then cmp else CompareTo(a.name, b.name)
  }

  /** compare(Object, Object): compares the objects' classes. */
  function CompareObjects<O>(a: O, b: O, classOf: O -> ClassInfo): (r: int)
    ensures r == Compare(classOf(a), classOf(b))
  {
    Compare(classOf(a), classOf(b))
  }

  /** Every class compares equal to itself. */
  lemma CompareReflexive(a: ClassInfo)
    ensures Compare(a, a) == 0
  {
    CompareToZeroIffEqual(a.name, a.name);
  }

  /** Swapping the arguments negates the sign of the result, as long as the
      difference of the priorities fits in an int. */
  lemma CompareAntisymmetric(a: ClassInfo, b: ClassInfo)
    requires a.priority.Priority? && b.priority.Priority? ==>
               IsInt(a.priority.value - b.priority.value) && IsInt(b.priority.value - a.priority.value)
    ensures Signum(Compare(a, b)) == -Signum(Compare(b, a))
  {
    CompareToAntisymmetric(a.name, b.name);
  }

  /** Two annotated classes that compare as 0 have the same priority and name. */
  lemma CompareZero(a: ClassInfo, b: ClassInfo)
    requires WellFormed(a) && WellFormed(b)
    requires Compare(a, b) == 0
    ensures a.priority == b.priority && a.name == b.name
  {
    CompareToZeroIffEqual(a.name, b.name);
    if a.priority.Priority? && b.priority.Priority? {
      var d := a.priority.value - b.priority.value;
      assert (d - Wrap32(d)) % TWO_32 == 0;
      assert -TWO_32 < d < TWO_32;
    }
  }

  /** As written, the subtraction can overflow: for priorities INT_MIN and 0
      both orders answer a negative number. */
  lemma OverflowBreaksAntisymmetry()
    ensures var a := ClassInfo("A", Priority(INT_MIN));
            var b := ClassInfo("B", Priority(0));
            Compare(a, b) < 0 && Compare(b, a) < 0
  {
    assert Wrap32(INT_MIN - 0) == INT_MIN;
    assert Wrap32(0 - INT_MIN) == INT_MIN by {
      assert 0 - INT_MIN == TWO_32 + INT_MIN;
    }
  }

  /** The evidently intended order of two priorities, as Integer.compare
      gives it: no subtraction, so no overflow. */
  function ComparePriorities(pa: int, pb: int): (r: int)
    ensures r == Signum(pa - pb)
  {
    if pa < pb then -1 else if pa == pb then 0 else 1
  }

  /** compare with the priorities compared without overflow. */
  function CompareCorrected(a: ClassInfo, b: ClassInfo): (r: int)
    ensures a.priority.Priority? && b.priority.Unannotated? ==> r == -1
    ensures a.priority.Unannotated? && b.priority.Priority? ==> r == 1
    ensures a.priority.Unannotated? && b.priority.Unannotated? ==> r == CompareTo(a.name, b.name)
    ensures a.priority.Priority? && b.priority.Priority? && a.priority.value != b.priority.value ==>
              Signum(r) == Signum(a.priority.value - b.priority.value)
  {
    match (a.priority, b.priority)
    case (Priority(_), Unannotated) => -1
    case (Unannotated, Priority(_)) => 1
    case (Unannotated, Unannotated) => CompareTo(a.name, b.name)
    case (Priority(pa), Priority(pb)) =>
      var cmp := ComparePriorities(pa, pb);
      if cmp != 0 then cmp else CompareTo(a.name, b.name)
  }

  /** The corrected order is antisymmetric for all priorities. */
  lemma CompareCorrectedAntisymmetric(a: ClassInfo, b: ClassInfo)
    ensures Signum(CompareCorrected(a, b)) == -Signum(CompareCorrected(b, a))
  {
    CompareToAntisymmetric(a.name, b.name);
  }

  /** The corrected order agrees with the written one whenever the written
      one does not overflow. */
  lemma CompareCorrectedAgrees(a: ClassInfo, b: ClassInfo)
    requires a.priority.Priority? && b.priority.Priority? ==> IsInt(a.priority.value - b.priority.value)
    ensures Signum(CompareCorrected(a, b)) == Signum(Compare(a, b))
  {
  }
}
