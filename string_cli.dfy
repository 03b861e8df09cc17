/** A string argument value of the old command-line shell (StringCli). */
module StringCli {
  import opened Wrappers
  import opened JavaLang

  /** What compareTo and equals can be handed: a string value, another
      command-line value (a ValueCli of some type, given by the ordinal of
      its TypeCli), or an object that is no command-line value at all. */
  datatype Obj = StringValue(value: string) | OtherValue(typeOrdinal: int) | NotAValue

  /** type(): STRING, whose ordinal in TypeCli is `stringOrdinal`. */
  function TypeOrdinal(o: Obj, stringOrdinal: int): (r: int)
    requires !o.NotAValue?
    ensures o.StringValue? ==> r == stringOrdinal
    ensures o.OtherValue? ==> r == o.typeOrdinal
  {
    if o.StringValue? then stringOrdinal else o.typeOrdinal
  }

  /** javaValue() and stringValue(): the wrapped string. */
  function StringValueOf(s: string): (r: string)
    ensures r == s
  {
    s
  }

  /** equals: another StringCli holding an equal string. */
  predicate Equals(s: string, v: Obj)
    ensures Equals(s, v) <==> v == StringValue(s)
  {
    v.StringValue? && v.value == s
  }

  /** hashCode: the string's hash. */
  function HashCodeOf(s: string): (h: int)
    ensures IsInt(h)
  {
    HashCode(s)
  }

  /** Equal values hash alike. */
  lemma EqualsHashCode(s: string, t: string)
    requires Equals(s, StringValue(t))
    ensures HashCodeOf(s) == HashCodeOf(t)
  {
  }

  /**
   * compareTo: -1 for an object that is no command-line value; the sign of
   * the difference of the type ordinals when the types differ; and the
   * string comparison for two strings.  A value of the same type that is
   * not a StringCli fails the cast.
   */
  function CompareTo(s: string, v: Obj, stringOrdinal: int): (r: Result<int, Exception>)
    ensures v.NotAValue? ==> r == Ok(-1)
    ensures v.OtherValue? && v.typeOrdinal != stringOrdinal ==>
              r == Ok(Signum(stringOrdinal - v.typeOrdinal)) && r.value != 0
    ensures v.OtherValue? && v.typeOrdinal == stringOrdinal ==> r == Err(ClassCast)
    ensures v.StringValue? ==> r == Ok(JavaLang.CompareTo(s, v.value))
  {
    if v.NotAValue? then Ok(-1)
    else
      var cmp := stringOrdinal - TypeOrdinal(v, stringOrdinal);
      if cmp != 0 then Ok(Signum(cmp))
      else if v.OtherValue? then Err(ClassCast)
      else Ok(JavaLang.CompareTo(s, v.value))
  }

  /** Between two strings compareTo is 0 exactly when equals holds, and
      swapping them negates it. */
  lemma CompareToConsistentWithEquals(s: string, t: string, stringOrdinal: int)
    ensures CompareTo(s, StringValue(t), stringOrdinal).value == 0 <==> Equals(s, StringValue(t))
    ensures CompareTo(s, StringValue(t), stringOrdinal).value
         == -CompareTo(t, StringValue(s), stringOrdinal).value
  {
    JavaLang.CompareToZeroIffEqual(s, t);
    JavaLang.CompareToAntisymmetric(s, t);
  }
}
