/** The textual forms a cart id may arrive in, as the UUID parser the cart
    service calls accepts them, and the canonical form it prints back. */
module Uuid {
  import opened Options
  import opened Text

  predicate IsHexDigit(c: char)
  {
    '0' <= c <= '9' || 'a' <= c <= 'f' || 'A' <= c <= 'F'
  }

  /** The offsets of the four hyphens of the 8-4-4-4-12 layout. */
  predicate IsDashOffset(i: int)
  {
    i == 8 || i == 13 || i == 18 || i == 23
  }

  /** The 8-4-4-4-12 layout, in either case of hex digit. */
  predicate Dashed(s: string)
  {
    && |s| == 36
    && forall i :: 0 <= i < 36 ==> if IsDashOffset(i) then s[i] == '-' else IsHexDigit(s[i])
  }

  /** The form the parser prints: the layout, lower case. */
  predicate Canonical(s: string)
  {
    Dashed(s) && Lower(s) == s
  }

  predicate AllHex(s: string)
  {
    forall i :: 0 <= i < |s| ==> IsHexDigit(s[i])
  }

  /** Thirty-two digits with the hyphens put in. */
  function Dash(h: string): (r: string)
    requires |h| == 32
    ensures |r| == 36
  {
    h[..8] + "-" + h[8..12] + "-" + h[12..16] + "-" + h[16..20] + "-" + h[20..]
  }

  lemma DashLayout(h: string)
    requires |h| == 32 && AllHex(h)
    ensures Dashed(Dash(h))
  {
    var r := Dash(h);
    forall i | 0 <= i < 36
      ensures if IsDashOffset(i) then r[i] == '-' else IsHexDigit(r[i])
    {
      if i < 8 {
        assert r[i] == h[i];
      } else if 8 < i < 13 {
        assert r[i] == h[i - 1];
      } else if 13 < i < 18 {
        assert r[i] == h[i - 2];
      } else if 18 < i < 23 {
        assert r[i] == h[i - 3];
      } else if 23 < i {
        assert r[i] == h[i - 4];
      }
    }
  }

  /** Lower-casing keeps the layout. */
  lemma LowerKeepsLayout(s: string)
    requires Dashed(s)
    ensures Canonical(Lower(s))
  {
    LowerIdempotent(s);
    assert forall i :: 0 <= i < 36 ==> Lower(s)[i] == LowerChar(s[i]);
  }

  /** The parse-then-print of a cart id: the four accepted forms are the
      8-4-4-4-12 layout (36 characters), the same prefixed by "urn:uuid:"
      in any case (45), the same wrapped in one character at each end (38,
      the wrapping characters are not inspected) and the 32 bare digits;
      anything else is refused. */
  function Parse(s: string): (r: Option<string>)
    ensures r.Some? ==> Canonical(r.value)
    ensures Dashed(s) ==> r == Some(Lower(s))
    ensures |s| == 36 ==> (r.Some? <==> Dashed(s))
    ensures |s| == 32 ==> (r.Some? <==> AllHex(s))
    ensures |s| != 32 && |s| != 36 && |s| != 38 && |s| != 45 ==> r.None?
  {
    if |s| == 36 then
      if Dashed(s) then LowerKeepsLayout(s); Some(Lower(s)) else None
    else if |s| == 45 then
      if Lower(s[..9]) == "urn:uuid:" && Dashed(s[9..]) then LowerKeepsLayout(s[9..]); Some(Lower(s[9..])) else None
    else if |s| == 38 then
      if Dashed(s[1..37]) then LowerKeepsLayout(s[1..37]); Some(Lower(s[1..37])) else None
    else if |s| == 32 then
      if AllHex(s) then DashLayout(s); LowerKeepsLayout(Dash(s)); Some(Lower(Dash(s))) else None
    else None
  }

  /** Printing is a fixed point of parsing: the id the service looks up
      parses back to itself. */
  lemma {:induction false} ParsePrintRoundTrip(s: string)
    requires Parse(s).Some?
    ensures Parse(Parse(s).value) == Parse(s)
  {
    var c := Parse(s).value;
    assert Canonical(c);
    assert Parse(c) == Some(Lower(c));
  }

  /** A stored canonical id parses to itself, so the lookups that follow a
      parse find the row stored under it. */
  lemma CanonicalParsesToItself(s: string)
    requires Canonical(s)
    ensures Parse(s) == Some(s)
  {
  }

  /** Lower-casing commutes with taking a slice. */
  lemma LowerSlice(s: string, i: nat, j: nat)
    requires i <= j <= |s|
    ensures Lower(s)[i..j] == Lower(s[i..j])
  {
  }

  /** Lower-casing keeps hex digits hex. */
  lemma LowerKeepsHex(s: string)
    requires AllHex(s)
    ensures AllHex(Lower(s))
  {
  }

  /** Lower-casing commutes with putting the hyphens in. */
  lemma LowerDash(h: string)
    requires |h| == 32
    ensures Dash(Lower(h)) == Lower(Dash(h))
  {
    var l, r := Dash(Lower(h)), Lower(Dash(h));
    forall i | 0 <= i < 36
      ensures l[i] == r[i]
    {
      if i < 8 {
        assert l[i] == Lower(h)[i];
      } else if 8 < i < 13 {
        assert l[i] == Lower(h)[i - 1];
      } else if 13 < i < 18 {
        assert l[i] == Lower(h)[i - 2];
      } else if 18 < i < 23 {
        assert l[i] == Lower(h)[i - 3];
      } else if 23 < i {
        assert l[i] == Lower(h)[i - 4];
      }
    }
  }

  /** Ids that differ only in the case of their letters name the same row,
      in each of the four accepted forms. */
  lemma {:induction false} CaseOfDigitsIrrelevant(s: string)
    requires Parse(s).Some?
    ensures Parse(Lower(s)) == Parse(s)
  {
    if |s| == 36 {
      LowerKeepsLayout(s);
      LowerIdempotent(s);
    } else if |s| == 45 {
      LowerSlice(s, 0, 9);
      LowerSlice(s, 9, 45);
      assert s[..9] == s[0..9] && s[9..] == s[9..45];
      var t := Lower(s);
      assert t[..9] == Lower(s[..9]) && t[9..] == Lower(s[9..]);
      LowerIdempotent(s[..9]);
      LowerKeepsLayout(s[9..]);
      LowerIdempotent(s[9..]);
      assert Lower(t[..9]) == "urn:uuid:" && Dashed(t[9..]);
    } else if |s| == 38 {
      LowerSlice(s, 1, 37);
      LowerKeepsLayout(s[1..37]);
      LowerIdempotent(s[1..37]);
    } else {
      LowerKeepsHex(s);
      LowerDash(s);
      LowerIdempotent(Dash(s));
    }
  }
}
