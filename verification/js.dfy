/**
 * The two pieces of JavaScript behaviour the server's decisions rest on:
 * the truthiness test `!v` on a request field or a stored string, and
 * `String.prototype.includes`.
 */
module Js {
  import opened Wrappers

  /**
   * A string-valued field as a handler reads it: `None` when it is absent.
   * `!v` is true exactly for an absent field and for the empty string.
   */
  predicate Truthy(v: Option<string>)
  {
    v.Some? && v.value != ""
  }

  /** `t` occurs in `s` starting at index `i`. */
  ghost predicate OccursAt(s: string, t: string, i: int)
  {
    0 <= i && i + |t| <= |s| && s[i..i + |t|] == t
  }

  /** `s.includes(t)`: a left-to-right search for `t` inside `s`. */
  function Includes(s: string, t: string): bool
    decreases |s|
  {
    if |s| < |t| then false
    else if s[..|t|] == t then true
    else Includes(s[1..], t)
  }

  /** The search agrees with the positional definition of an occurrence. */
  lemma {:induction false} IncludesIff(s: string, t: string)
    ensures Includes(s, t) <==> exists i :: OccursAt(s, t, i)
    decreases |s|
  {
    if |s| >= |t| && s[..|t|] != t {
      IncludesIff(s[1..], t);
      forall i | OccursAt(s[1..], t, i)
        ensures OccursAt(s, t, i + 1)
      {
        assert s[1..][i..i + |t|] == s[i + 1..i + 1 + |t|];
      }
      forall i | OccursAt(s, t, i)
        ensures OccursAt(s[1..], t, i - 1)
      {
        assert i != 0 by { assert s[0..|t|] == s[..|t|]; }
        assert s[1..][i - 1..i - 1 + |t|] == s[i..i + |t|];
      }
    } else if |s| >= |t| {
      assert OccursAt(s, t, 0);
    }
  }

  /** Whatever `s` is, `s + t` includes `t`. */
  lemma IncludesAppended(s: string, t: string)
    ensures Includes(s + t, t)
  {
    assert OccursAt(s + t, t, |s|) by {
      assert (s + t)[|s|..|s| + |t|] == t;
    }
    IncludesIff(s + t, t);
  }
}
