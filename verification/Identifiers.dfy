/** Event and customer identifiers: the scan of `ValidateID` and the order used by the queue. */
module Identifiers {

  type Id = string

  predicate IdChar(c: char) {
    'a' <= c <= 'z' || 'A' <= c <= 'Z' || '0' <= c <= '9' || c == '_' || c == '-'
  }

  /** One to 64 ASCII letters, digits, underscores or hyphens. */
  predicate ValidId(id: Id) {
    1 <= |id| <= 64 && forall i :: 0 <= i < |id| ==> IdChar(id[i])
  }

  /** The byte scan of the service; it also is the column CHECK of both tables. */
  method ValidateID(id: Id) returns (ok: bool)
    ensures ok <==> ValidId(id)
    ensures ok <==> 1 <= |id| <= 64 && forall c <- id ::
              'A' <= c <= 'Z' || 'a' <= c <= 'z' || '0' <= c <= '9' || c == '_' || c == '-'
  {
    if |id| == 0 || |id| > 64 {
      return false;
    }
    for i := 0 to |id|
      invariant forall j :: 0 <= j < i ==> IdChar(id[j])
    {
      var b := id[i];
      var letter := 'a' <= b <= 'z' || 'A' <= b <= 'Z';
      var digit := '0' <= b <= '9';
      var separator := b == '_' || b == '-';
      if !letter && !digit && !separator {
        assert b in id;
        return false;
      }
    }
    return true;
  }

  /** Strict byte order on identifiers, the tie-break of the claim query. */
  predicate Less(a: Id, b: Id) {
    b != [] && (a == [] || a[0] < b[0] || (a[0] == b[0] && Less(a[1..], b[1..])))
  }

  /** Equal before position `k`, where `a` ends or has the smaller character. */
  ghost predicate SmallerAt(a: Id, b: Id, k: int) {
    && 0 <= k <= |a| && k < |b| && (forall i :: 0 <= i < k ==> a[i] == b[i])
    && (k < |a| ==> a[k] < b[k])
  }

  /** The recursive order is the dictionary order: the smaller id is a proper prefix of the other, or
      has the smaller character where they first differ. */
  lemma {:induction false} LessIsDictionaryOrder(a: Id, b: Id)
    ensures Less(a, b) <==> exists k :: SmallerAt(a, b, k)
  {
    if a != [] && b != [] && a[0] == b[0] {
      LessIsDictionaryOrder(a[1..], b[1..]);
      if k :| SmallerAt(a[1..], b[1..], k) {
        Shift(a, b, k + 1);
      }
      if k :| SmallerAt(a, b, k) {
        Shift(a, b, k);
      }
    } else if Less(a, b) {
      assert SmallerAt(a, b, 0);
    }
  }

  lemma Shift(a: Id, b: Id, k: int)
    requires a != [] && b != [] && a[0] == b[0]
    ensures SmallerAt(a, b, k) ==> SmallerAt(a[1..], b[1..], k - 1)
    ensures SmallerAt(a[1..], b[1..], k - 1) ==> SmallerAt(a, b, k)
  {
    if SmallerAt(a[1..], b[1..], k - 1) {
      forall i | 0 <= i < k ensures a[i] == b[i] {
        assert i > 0 ==> a[1..][i - 1] == b[1..][i - 1];
      }
    }
  }

  lemma {:induction false} LessTotal(a: Id, b: Id)
    ensures a == b || Less(a, b) || Less(b, a)
    ensures !(Less(a, b) && Less(b, a))
    ensures Less(a, b) ==> a != b
  {
    if a != [] && b != [] {
      LessTotal(a[1..], b[1..]);
      assert a == [a[0]] + a[1..] && b == [b[0]] + b[1..];
    }
  }

  lemma {:induction false} LessTransitive(a: Id, b: Id, c: Id)
    requires Less(a, b) && Less(b, c)
    ensures Less(a, c)
  {
    if a != [] {
      if a[0] == b[0] && b[0] == c[0] {
        LessTransitive(a[1..], b[1..], c[1..]);
      }
    }
  }
}
