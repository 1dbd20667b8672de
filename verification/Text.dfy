/** Truncating UTF-8 text (RFC 3629) at a byte limit without splitting a character. */
module Text {
  type Bytes = seq<nat>

  /** A Unicode scalar value. */
  predicate Scalar(c: nat) {
    c < 0x110000 && !(0xD800 <= c < 0xE000)
  }

  predicate Scalars(s: seq<nat>) {
    forall i | 0 <= i < |s| :: Scalar(s[i])
  }

  /** Section 3 of RFC 3629. */
  function Utf8(c: nat): (r: Bytes)
    requires Scalar(c)
    ensures 1 <= |r| <= 4 && !Continuation(r[0])
    ensures forall i | 1 <= i < |r| :: Continuation(r[i])
  {
    if c < 0x80 then [c]
    else if c < 0x800 then [0xC0 + c / 64, 0x80 + c % 64]
    else if c < 0x10000 then [0xE0 + c / 4096, 0x80 + c / 64 % 64, 0x80 + c % 64]
    else [0xF0 + c / 262144, 0x80 + c / 4096 % 64, 0x80 + c / 64 % 64, 0x80 + c % 64]
  }

  function Encode(s: seq<nat>): Bytes
    requires Scalars(s)
  {
    if s == [] then [] else Utf8(s[0]) + Encode(s[1..])
  }

  predicate Continuation(b: nat) {
    0x80 <= b < 0xC0
  }

  /** `is_char_boundary` */
  predicate Boundary(value: Bytes, end: nat) {
    end == 0 || end == |value| || (end < |value| && !Continuation(value[end]))
  }

  /** Where `truncate_to_byte_boundary` cuts. */
  function Cutoff(value: Bytes, max: nat): nat {
    if |value| <= max then |value| else LastBoundary(value, max)
  }

  function LastBoundary(value: Bytes, end: nat): nat {
    if end == 0 || Boundary(value, end) then end else LastBoundary(value, end - 1)
  }

  function Truncated(value: Bytes, max: nat): Bytes {
    CutoffFits(value, max);
    value[..Cutoff(value, max)]
  }

  lemma {:induction false} LastBoundaryFits(value: Bytes, end: nat)
    ensures LastBoundary(value, end) <= end && Boundary(value, LastBoundary(value, end))
    ensures forall i: nat | LastBoundary(value, end) < i <= end :: !Boundary(value, i)
  {
    if !(end == 0 || Boundary(value, end)) {
      LastBoundaryFits(value, end - 1);
    }
  }

  /** The cut is the greatest boundary within the limit. */
  lemma CutoffFits(value: Bytes, max: nat)
    ensures Cutoff(value, max) <= |value| && Cutoff(value, max) <= max && Boundary(value, Cutoff(value, max))
    ensures forall i: nat | Cutoff(value, max) < i <= max && i <= |value| :: !Boundary(value, i)
  {
    LastBoundaryFits(value, max);
  }

  // ---- boundaries are the ends of characters --------------------------------------------------------------

  lemma {:induction false} EncodeSplit(s: seq<nat>, k: nat)
    requires Scalars(s) && k <= |s|
    ensures Encode(s) == Encode(s[..k]) + Encode(s[k..])
  {
    if k == 0 {
      assert s[..0] == [] && s[0..] == s;
    } else {
      EncodeSplit(s[1..], k - 1);
      assert s[..k][1..] == s[1..][..k - 1] && s[1..][k - 1..] == s[k..] && s[..k][0] == s[0];
    }
  }

  /** The end of any number of whole characters is a boundary. */
  lemma CharacterEnds(s: seq<nat>, k: nat)
    requires Scalars(s) && k <= |s|
    ensures |Encode(s[..k])| <= |Encode(s)| && Encode(s)[..|Encode(s[..k])|] == Encode(s[..k])
    ensures Boundary(Encode(s), |Encode(s[..k])|)
  {
    EncodeSplit(s, k);
    if k < |s| {
      var rest := s[k..];
      assert Encode(rest) == Utf8(rest[0]) + Encode(rest[1..]);
      assert Encode(s)[|Encode(s[..k])|] == Utf8(rest[0])[0];
    } else {
      assert s[k..] == [];
    }
  }

  /** And nothing else is: every boundary ends some number of whole characters. */
  lemma {:induction false} BoundaryEnds(s: seq<nat>, end: nat) returns (k: nat)
    requires Scalars(s) && end <= |Encode(s)| && Boundary(Encode(s), end)
    ensures k <= |s| && |Encode(s[..k])| == end
    decreases |s|
  {
    if end == 0 {
      k := 0;
    } else {
      var first, rest := Utf8(s[0]), Encode(s[1..]);
      assert Encode(s) == first + rest;
      assert forall i | 0 < i < |first| :: Encode(s)[i] == first[i] && Continuation(first[i]);
      assert end >= |first|;
      assert Boundary(rest, end - |first|) by {
        if 0 < end - |first| < |rest| {
          assert Encode(s)[end] == rest[end - |first|];
        }
      }
      k := BoundaryEnds(s[1..], end - |first|);
      assert s[..k + 1][1..] == s[1..][..k] && s[..k + 1][0] == s[0];
      k := k + 1;
    }
  }

  /** Truncation keeps exactly as many whole characters as fit. */
  lemma TruncatedIsLongest(s: seq<nat>, max: nat) returns (k: nat)
    requires Scalars(s)
    ensures k <= |s| && Truncated(Encode(s), max) == Encode(s[..k]) && |Encode(s[..k])| <= max
    ensures forall n: nat | k < n <= |s| :: |Encode(s[..n])| > max
  {
    var value := Encode(s);
    CutoffFits(value, max);
    k := BoundaryEnds(s, Cutoff(value, max));
    CharacterEnds(s, k);
    forall n: nat | k < n <= |s| ensures |Encode(s[..n])| > max {
      CharacterEnds(s, n);
      Longer(s, k, n);
    }
  }

  /** More characters take more bytes. */
  lemma Longer(s: seq<nat>, k: nat, n: nat)
    requires Scalars(s) && k < n <= |s|
    ensures |Encode(s[..k])| < |Encode(s[..n])|
  {
    EncodeSplit(s[..n], k);
    assert s[..n][..k] == s[..k];
    var more := s[..n][k..];
    assert Encode(more) == Utf8(more[0]) + Encode(more[1..]);
  }

  lemma TruncatedAgain(value: Bytes, max: nat)
    ensures Truncated(Truncated(value, max), max) == Truncated(value, max)
  {
    CutoffFits(value, max);
    var cut := Truncated(value, max);
    assert |cut| <= max && Cutoff(cut, max) == |cut|;
  }

  /** `truncate_to_byte_boundary` */
  method TruncateToByteBoundary(value: Bytes, max: nat) returns (r: Bytes)
    ensures r == Truncated(value, max)
  {
    CutoffFits(value, max);
    if |value| <= max {
      return value;
    }
    var end: nat := max;
    while end > 0 && !Boundary(value, end)
      invariant 0 <= end <= max && LastBoundary(value, end) == LastBoundary(value, max)
    {
      end := end - 1;
    }
    r := value[..end];
  }
}
