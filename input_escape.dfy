/**
 * Escaping of committed input-method text before it is sent to the editor as
 * key notation: a literal `<` would start a key name there, so it is written
 * as `<lt>`; every other character stands for itself.
 */
module InputEscape {

  /** The escape sequence that stands for a literal `<`. */
  const Lt: string := "<lt>"

  /** Number of `<` characters in `s`. */
  function LtCount(s: string): nat
  {
    if s == [] then 0 else (if s[0] == '<' then 1 else 0) + LtCount(s[1..])
  }

  /** `str::replace('<', "<lt>")`. */
  function EscapeLt(s: string): (r: string)
    ensures |r| == |s| + 3 * LtCount(s)
  {
    if s == [] then []
    else (if s[0] == '<' then Lt else [s[0]]) + EscapeLt(s[1..])
  }

  /** How the editor reads key notation back: `<lt>` is one `<`. */
  function UnescapeLt(r: string): string
  {
    if |r| >= 4 && r[..4] == Lt then "<" + UnescapeLt(r[4..])
    else if r == [] then []
    else [r[0]] + UnescapeLt(r[1..])
  }

  /** The editor receives exactly the committed text. */
  lemma {:induction false} EscapeRoundTrip(s: string)
    ensures UnescapeLt(EscapeLt(s)) == s
  {
    if s != [] {
      EscapeRoundTrip(s[1..]);
      var r := EscapeLt(s);
      if s[0] == '<' {
        assert r[..4] == Lt && r[4..] == EscapeLt(s[1..]);
      } else {
        assert r[0] == s[0] && r[1..] == EscapeLt(s[1..]);
        assert |r| >= 4 ==> r[..4][0] == s[0] != Lt[0];
      }
    }
  }

  /** Escaping works character by character. */
  lemma {:induction false} EscapeConcat(a: string, b: string)
    ensures EscapeLt(a + b) == EscapeLt(a) + EscapeLt(b)
    decreases |a|
  {
    if a == [] {
      assert a + b == b;
    } else {
      assert (a + b)[0] == a[0] && (a + b)[1..] == a[1..] + b;
      EscapeConcat(a[1..], b);
    }
  }

  /** A `<` becomes `<lt>`; any other character is kept as it is. */
  lemma EscapeChar(c: char)
    ensures EscapeLt([c]) == if c == '<' then Lt else [c]
  {
    assert [c][1..] == [];
  }

  /** Text without a `<` is sent unchanged. */
  lemma {:induction false} EscapeWithoutLt(s: string)
    requires forall k :: 0 <= k < |s| ==> s[k] != '<'
    ensures EscapeLt(s) == s
  {
    if s != [] {
      EscapeWithoutLt(s[1..]);
    }
  }
}
