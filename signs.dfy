/** The +1/-1 polarity used as a directional multiplier in every price equation
    (enum `Sign` in the stock package). */
module Signs {
  import opened Results

  datatype Sign = Positive | Negative

  /** The enum members in declaration order, as `Sign.values()` lists them. */
  const Members: seq<Sign> := [Positive, Negative]

  /** The integer carried by a member: `value()`. */
  function Value(s: Sign): (v: int)
    ensures v == 1 || v == -1
    ensures v == 1 <==> s == Positive
  {
    match s
    case Positive => 1
    case Negative => -1
  }

  /** The linear search `fromValue` performs over the members. */
  function Find(members: seq<Sign>, v: int): (r: Option<Sign>)
    ensures r.Some? ==> r.value in members && Value(r.value) == v
    ensures r.None? ==> forall m :: m in members ==> Value(m) != v
  {
    if members == [] then None
    else if Value(members[0]) == v then Some(members[0])
    else Find(members[1..], v)
  }

  /** `sign.value() * x`, written as a choice between `x` and `-x`. */
  function Signed(s: Sign, x: real): (r: real)
    ensures s == Positive ==> r == x
    ensures s == Negative ==> r == -x
  {
    if s == Positive then x else -x
  }

  /** `Signed` is multiplication by the sign's value. */
  lemma SignedIsProduct(s: Sign, x: real)
    ensures Signed(s, x) == Value(s) as real * x
  {
  }

  /** `fromValue`: the member whose value is `v`, or an argument error. */
  function FromValue(v: int): (r: Result<Sign>)
    ensures r.Ok? <==> v == 1 || v == -1
    ensures r.Ok? ==> Value(r.value) == v
    ensures r.Err? ==> r.error == IllegalArgument
  {
    match Find(Members, v)
    case Some(s) => Ok(s)
    case None => Err(IllegalArgument)
  }

  /** `negative()`: looks up the member whose value is the opposite one. */
  function Negated(s: Sign): (r: Sign)
    ensures r != s
    ensures Value(r) == -Value(s)
  {
    var opposite := FromValue(Value(s) * -1);
    opposite.value
  }

  /** Negation is an involution. */
  lemma NegatedInvolution(s: Sign)
    ensures Negated(Negated(s)) == s
  {
  }

  /** Reading a sign back from its value gives the same sign. */
  lemma FromValueRoundTrip(s: Sign)
    ensures FromValue(Value(s)) == Ok(s)
  {
  }

  /** A member is determined by its value. */
  lemma ValueInjective(s: Sign, t: Sign)
    ensures Value(s) == Value(t) <==> s == t
  {
  }
}
