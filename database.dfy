/**
 * The message-history read path of pkg/database/database.go: rows arrive newest first
 * (`ORDER BY created_at DESC`), are scanned one by one into a slice, and the slice is
 * reversed in place into chronological order. The SQL itself is an external collaborator:
 * its outcome is the `query` argument.
 */
module Database {
  import opened Wrappers
  import opened Models

  /** One `rows.Next()` step: either a scanned row or the error `rows.Scan` returned. */
  datatype RowScan = Scanned(row: Message) | ScanFailed(err: DbError)

  /** Reference definition of reversal. */
  function Reversed<T>(s: seq<T>): (r: seq<T>)
    ensures |r| == |s|
  {
    if s == [] then [] else Reversed(s[1..]) + [s[0]]
  }

  /** Element k of the reversal is element |s|-1-k of the input. */
  lemma {:induction false} ReversedAt<T>(s: seq<T>, k: nat)
    requires k < |s|
    ensures Reversed(s)[k] == s[|s| - 1 - k]
  {
    if k < |s| - 1 {
      ReversedAt(s[1..], k);
    }
  }

  /** Reversal keeps every element with its multiplicity. */
  lemma {:induction false} ReversedKeepsElements<T>(s: seq<T>)
    ensures multiset(Reversed(s)) == multiset(s)
  {
    if s != [] {
      ReversedKeepsElements(s[1..]);
      assert s == [s[0]] + s[1..];
    }
  }

  /** Lists of length 0 or 1 come back unchanged. */
  lemma ReversedShort<T>(s: seq<T>)
    requires |s| <= 1
    ensures Reversed(s) == s
  {
  }

  /** Reversing twice gives back the input. */
  lemma ReversedTwice<T>(s: seq<T>)
    ensures Reversed(Reversed(s)) == s
  {
    var r := Reversed(Reversed(s));
    forall k | 0 <= k < |s|
      ensures r[k] == s[k]
    {
      ReversedAt(Reversed(s), k);
      ReversedAt(s, |s| - 1 - k);
    }
  }

  /** The order the SQL query produces. */
  ghost predicate NewestFirst(s: seq<Message>) {
    forall i, j :: 0 <= i < j < |s| ==> s[i].createdAt >= s[j].createdAt
  }

  /** Oldest first. */
  ghost predicate Chronological(s: seq<Message>) {
    forall i, j :: 0 <= i < j < |s| ==> s[i].createdAt <= s[j].createdAt
  }

  /** Reversing rows that arrive newest first yields them in chronological order. */
  lemma NewestFirstReversedIsChronological(s: seq<Message>)
    requires NewestFirst(s)
    ensures Chronological(Reversed(s))
  {
    var r := Reversed(s);
    forall i, j | 0 <= i < j < |r|
      ensures r[i].createdAt <= r[j].createdAt
    {
      ReversedAt(s, i);
      ReversedAt(s, j);
    }
  }

  /** Reference meaning of the scan loop: the first failing scan aborts with its error. */
  function ScanAll(rows: seq<RowScan>): (r: Result<seq<Message>, DbError>)
    ensures r.Success? ==> |r.value| == |rows| && forall i :: 0 <= i < |rows| ==> rows[i] == Scanned(r.value[i])
    ensures r.Failure? ==> exists i :: 0 <= i < |rows| && rows[i] == ScanFailed(r.error)
                                       && forall j :: 0 <= j < i ==> rows[j].Scanned?
  {
    if rows == [] then Success([])
    else
      match ScanAll(rows[..|rows| - 1])
      case Failure(e) => Failure(e)
      case Success(ms) =>
        match rows[|rows| - 1]
        case ScanFailed(e) => Failure(e)
        case Scanned(m) => Success(ms + [m])
  }

  /** When no scan fails, the scan loop keeps every row. */
  lemma {:induction false} ScanAllWithoutErrors(rows: seq<RowScan>)
    requires forall i :: 0 <= i < |rows| ==> rows[i].Scanned?
    ensures ScanAll(rows).Success?
  {
    if rows != [] {
      ScanAllWithoutErrors(rows[..|rows| - 1]);
    }
  }

  /** The `for rows.Next()` loop: append each scanned row, return the first scan error. */
  method ScanRows(rows: seq<RowScan>) returns (r: Result<seq<Message>, DbError>)
    ensures r == ScanAll(rows)
  {
    var messages: seq<Message> := [];
    var i := 0;
    while i < |rows|
      invariant 0 <= i <= |rows|
      invariant ScanAll(rows[..i]) == Success(messages)
    {
      assert rows[..i + 1][..i] == rows[..i];
      match rows[i]
      case ScanFailed(e) =>
        assert ScanAll(rows[..i + 1]).Failure?;
        ScanFailurePropagates(rows, i + 1);
        return Failure(e);
      case Scanned(m) =>
        messages := messages + [m];
      i := i + 1;
    }
    assert rows[..i] == rows;
    return Success(messages);
  }

  /** Once a prefix of the rows fails to scan, the whole scan fails with that error. */
  lemma {:induction false} ScanFailurePropagates(rows: seq<RowScan>, n: nat)
    requires n <= |rows| && ScanAll(rows[..n]).Failure?
    ensures ScanAll(rows) == ScanAll(rows[..n])
    decreases |rows| - n
  {
    if n < |rows| {
      assert rows[..n + 1][..n] == rows[..n];
      ScanFailurePropagates(rows, n + 1);
    } else {
      assert rows[..n] == rows;
    }
  }

  /** The two-index swap loop: `for i, j := 0, len-1; i < j; i, j = i+1, j-1`. */
  method ReverseInPlace<T>(a: array<T>)
    modifies a
    ensures a[..] == Reversed(old(a[..]))
  {
    var i, j := 0, a.Length - 1;
    while i < j
      invariant 0 <= i && j == a.Length - 1 - i && i <= a.Length - i
      invariant forall k :: 0 <= k < i ==> a[k] == old(a[a.Length - 1 - k]) && a[a.Length - 1 - k] == old(a[k])
      invariant forall k :: i <= k <= j ==> a[k] == old(a[k])
    {
      a[i], a[j] := a[j], a[i];
      i, j := i + 1, j - 1;
    }
    ghost var was := old(a[..]);
    forall k | 0 <= k < a.Length
      ensures a[..][k] == Reversed(was)[k]
    {
      ReversedAt(was, k);
    }
  }

  /** Scan the rows, then reverse the scanned slice in place. */
  method ScanAndReverse(rows: seq<RowScan>) returns (r: Result<seq<Message>, DbError>)
    ensures ScanAll(rows).Failure? ==> r == ScanAll(rows)
    ensures ScanAll(rows).Success? ==> r == Success(Reversed(ScanAll(rows).value))
  {
    var scanned := ScanRows(rows);
    if scanned.Failure? {
      return scanned;
    }
    var ms := scanned.value;
    var a := new Message[|ms|](i requires 0 <= i < |ms| => ms[i]);
    assert a[..] == ms;
    ReverseInPlace(a);
    return Success(a[..]);
  }

  /**
   * GetRecentMessages: a failed query or a failed scan returns only the error (never a
   * partial list); otherwise the rows come back in the reverse of their scan order.
   */
  method GetRecentMessages(query: Result<seq<RowScan>, DbError>) returns (r: Result<seq<Message>, DbError>)
    ensures query.Failure? ==> r == Failure(query.error)
    ensures query.Success? && ScanAll(query.value).Failure? ==> r == ScanAll(query.value)
    ensures query.Success? && ScanAll(query.value).Success? ==> r == Success(Reversed(ScanAll(query.value).value))
    ensures r.Success? ==> query.Success? && |r.value| == |query.value|
  {
    if query.Failure? {
      return Failure(query.error);
    }
    r := ScanAndReverse(query.value);
  }
}
