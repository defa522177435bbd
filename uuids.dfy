/**
 * Identifiers. A UUID is held as its 32 lower-case hexadecimal digits, the
 * form `UUID.hex` gives and `str()` prints with hyphens.
 */
module Uuids {
  import opened Wrappers
  import opened Text

  predicate IsHexDigit(c: char)
  {
    '0' <= c <= '9' || 'a' <= c <= 'f' || 'A' <= c <= 'F'
  }

  predicate IsLowerHexDigit(c: char)
  {
    '0' <= c <= '9' || 'a' <= c <= 'f'
  }

  predicate IsCanonicalHex(h: string)
  {
    |h| == 32 && forall i :: 0 <= i < |h| ==> IsLowerHexDigit(h[i])
  }

  type Uuid = h: string | IsCanonicalHex(h) witness seq(32, _ => '0')

  /** `s.replace('-', '')`. */
  function RemoveHyphens(s: string): (r: string)
    ensures |r| <= |s|
    ensures '-' !in r
  {
    if s == [] then [] else (if s[0] == '-' then [] else [s[0]]) + RemoveHyphens(s[1..])
  }

  lemma {:induction false} RemoveHyphensAppend(a: string, b: string)
    ensures RemoveHyphens(a + b) == RemoveHyphens(a) + RemoveHyphens(b)
    decreases |a|
  {
    if a == [] {
      assert a + b == b;
    } else {
      var head := if a[0] == '-' then [] else [a[0]];
      assert (a + b)[0] == a[0];
      assert (a + b)[1..] == a[1..] + b;
      assert RemoveHyphens(a + b) == head + RemoveHyphens(a[1..] + b);
      RemoveHyphensAppend(a[1..], b);
      assert RemoveHyphens(a) == head + RemoveHyphens(a[1..]);
    }
  }

  lemma {:induction false} RemoveHyphensNone(s: string)
    requires '-' !in s
    ensures RemoveHyphens(s) == s
    decreases |s|
  {
    if s != [] {
      RemoveHyphensNone(s[1..]);
    }
  }

  /**
   * `uuid.UUID(s)` on a path parameter: the text is accepted exactly when,
   * with every hyphen removed, it is 32 hexadecimal digits (of either case);
   * the value is those digits in lower case.
   */
  function ParseUuid(s: string): (r: Option<Uuid>)
    ensures r.Some? <==> var h := RemoveHyphens(s); |h| == 32 && forall i :: 0 <= i < 32 ==> IsHexDigit(h[i])
    ensures r.Some? ==> r.value == Lower(RemoveHyphens(s))
  {
    var h := RemoveHyphens(s);
    if |h| == 32 && forall i :: 0 <= i < 32 ==> IsHexDigit(h[i]) then
      var l := Lower(h);
      assert IsCanonicalHex(l) by {
        forall i | 0 <= i < 32 ensures IsLowerHexDigit(l[i]) {
          assert l[i] == LowerChar(h[i]);
        }
      }
      Some(l)
    else
      None
  }

  /** `str(u)`: the canonical 8-4-4-4-12 hyphenated form. */
  function FormatUuid(u: Uuid): (r: string)
    ensures |r| == 36
    ensures r[8] == r[13] == r[18] == r[23] == '-'
    ensures forall i :: 0 <= i < 36 && i !in {8, 13, 18, 23} ==> r[i] != '-'
    ensures r[..8] == u[..8] && r[9..13] == u[8..12] && r[14..18] == u[12..16] && r[19..23] == u[16..20]
            && r[24..] == u[20..]
  {
    u[..8] + "-" + u[8..12] + "-" + u[12..16] + "-" + u[16..20] + "-" + u[20..]
  }

  /** Appending a hyphen and a hyphen-free piece adds exactly that piece once hyphens are removed. */
  lemma RemoveHyphensJoin(x: string, y: string)
    requires '-' !in y
    ensures RemoveHyphens(x + "-" + y) == RemoveHyphens(x) + y
  {
    RemoveHyphensAppend(x + "-", y);
    RemoveHyphensAppend(x, "-");
    RemoveHyphensNone(y);
  }

  lemma SliceHasNoHyphen(u: Uuid, i: nat, j: nat)
    requires i <= j <= 32
    ensures '-' !in u[i..j]
  {
  }

  /** The canonical form of an identifier, sent back as a path parameter, parses to that identifier. */
  lemma ParseFormatted(u: Uuid)
    ensures ParseUuid(FormatUuid(u)) == Some(u)
  {
    SliceHasNoHyphen(u, 0, 8);
    SliceHasNoHyphen(u, 8, 12);
    SliceHasNoHyphen(u, 12, 16);
    SliceHasNoHyphen(u, 16, 20);
    SliceHasNoHyphen(u, 20, 32);
    var s1 := u[..8];
    var s2 := s1 + "-" + u[8..12];
    var s3 := s2 + "-" + u[12..16];
    var s4 := s3 + "-" + u[16..20];
    var s5 := s4 + "-" + u[20..];
    RemoveHyphensNone(s1);
    RemoveHyphensJoin(s1, u[8..12]);
    RemoveHyphensJoin(s2, u[12..16]);
    RemoveHyphensJoin(s3, u[16..20]);
    RemoveHyphensJoin(s4, u[20..]);
    assert s5 == FormatUuid(u);
    assert u[..8] + u[8..12] + u[12..16] + u[16..20] + u[20..] == u;
    assert RemoveHyphens(FormatUuid(u)) == u;
    assert Lower(u) == u by {
      forall i | 0 <= i < |u| ensures Lower(u)[i] == u[i] {
        assert IsLowerHexDigit(u[i]);
      }
    }
  }
}
