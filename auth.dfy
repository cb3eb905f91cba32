/** The allow-list gate that `execute` applies before running a command. */
module Auth {
  import opened Types
  import opened Text

  /** `xs.indexOf(x)`: the first position holding `x`, or -1. */
  function IndexOf(xs: seq<string>, x: string): (r: int)
    ensures -1 <= r < |xs|
    ensures r == -1 <==> x !in xs
    ensures r >= 0 ==> xs[r] == x && x !in xs[..r]
  {
    if xs == [] then -1
    else if xs[0] == x then 0
    else
      var k := IndexOf(xs[1..], x);
      if k == -1 then -1 else k + 1
  }

  /** `(PARENTS || "").split(",")`: the allow-list read from the environment. */
  function Parents(env: Option<string>): seq<string> {
    Split(if env.Some? then env.value else "", ',')
  }

  /** `isFromParent`: the sender's id, as a decimal string, is on the allow-list; no sender, no access. */
  function IsFromParent(parents: seq<string>, from: Option<User>): (r: bool)
    ensures r <==> from.Some? && IntToString(from.value.id) in parents
  {
    match from
    case None => false
    case Some(u) => IndexOf(parents, IntToString(u.id)) >= 0
  }

  /** With no allow-list configured, or an empty one, nobody is let through. */
  lemma UnconfiguredRefusesAll(env: Option<string>, from: Option<User>)
    requires env.None? || env == Some("")
    ensures !IsFromParent(Parents(env), from)
  {
    assert Parents(env) == [""];
  }

  /** Membership is exact: a sender gets through only with the very id listed. */
  lemma GateIsExact(id: int, listed: int)
    ensures IsFromParent([IntToString(listed)], Some(User(id))) <==> id == listed
  {
    IntToStringInjective(id, listed);
  }
}
