/** Records and the counter-based result cursor (Stubs/Result.cs). */
module Results {

  /** The decimal character of a digit. */
  function Digit(d: nat): (c: char)
    requires d < 10
    ensures '0' <= c <= '9' && c as int - '0' as int == d
  {
    ('0' as int + d) as char
  }

  /** The text `ToString()` gives for a non-negative count: decimal digits,
      most significant first, with no leading zero. */
  function Decimal(n: nat): (s: string)
    ensures 1 <= |s|
    ensures forall i :: 0 <= i < |s| ==> '0' <= s[i] <= '9'
    ensures |s| > 1 ==> s[0] != '0'
    ensures (n < 10) == (|s| == 1)
  {
    if n < 10 then [Digit(n)] else Decimal(n / 10) + [Digit(n % 10)]
  }

  /** Reads a string of decimal digits back as a number. */
  function ParseDecimal(s: string): nat
    requires forall i :: 0 <= i < |s| ==> '0' <= s[i] <= '9'
  {
    if s == [] then 0
    else 10 * ParseDecimal(s[..|s| - 1]) + (s[|s| - 1] as int - '0' as int)
  }

  /** The text of a count determines the count. */
  lemma {:induction false} DecimalRoundTrip(n: nat)
    ensures ParseDecimal(Decimal(n)) == n
  {
    if n >= 10 {
      var s := Decimal(n);
      assert s[..|s| - 1] == Decimal(n / 10);
      DecimalRoundTrip(n / 10);
    }
  }

  /** The answers of `n` successive FetchAsync calls on a cursor whose
      counter is `count` before the first of them. */
  function FetchReplies(count: nat, n: nat): seq<bool>
    decreases n
  {
    if n == 0 then [] else [count < 3] + FetchReplies(count + 1, n - 1)
  }

  /** Call k of the n answers is true exactly when count + k < 3; from a
      fresh cursor (count 0) the first three calls answer true and every
      later one false. */
  lemma {:induction false} FetchRepliesExact(count: nat, n: nat)
    ensures |FetchReplies(count, n)| == n
    ensures forall k :: 0 <= k < n ==> FetchReplies(count, n)[k] == (count + k < 3)
    decreases n
  {
    if n > 0 {
      FetchRepliesExact(count + 1, n - 1);
    }
  }

  /** The contents of the records a fetch-until-false loop reads from a
      cursor whose counter starts at `count`: the decimal text of each
      counter value it reaches while FetchAsync still answers true. */
  function RecordsFrom(count: nat): seq<string>
    decreases 3 - count
  {
    if count < 3 then [Decimal(count + 1)] + RecordsFrom(count + 1) else []
  }

  /** Draining a fresh cursor reads the three records "1", "2" and "3". */
  lemma FreshCursorRecords()
    ensures RecordsFrom(0) == ["1", "2", "3"]
  {
  }

  /** The mutable record holder. */
  class Record {
    var contents: string

    constructor (info: string)
      ensures contents == info
    {
      contents := info;
    }
  }

  /** The stub cursor: a counter that FetchAsync advances. */
  class ResultCursor {
    var count: nat

    constructor ()
      ensures count == 0
    {
      count := 0;
    }

    /** Answers whether the counter was below 3, and advances it in every
        case (the post-increment happens whether the answer is true or not). */
    method FetchAsync() returns (more: bool)
      modifies this
      ensures more == (old(count) < 3)
      ensures count == old(count) + 1
    {
      more := count < 3;
      count := count + 1;
    }

    /** A new record holding the decimal text of the counter; reading it
        changes nothing. */
    method Current() returns (r: Record)
      ensures fresh(r)
      ensures r.contents == Decimal(count) && ParseDecimal(r.contents) == count
    {
      DecimalRoundTrip(count);
      r := new Record(Decimal(count));
    }

    /** Does nothing: the counter, and so every later answer of FetchAsync,
        is as before. */
    method Consume()
      ensures count == old(count)
    {
    }
  }

  /** Calls FetchAsync `n` times and returns the answers. */
  method FetchTimes(cursor: ResultCursor, n: nat) returns (replies: seq<bool>)
    modifies cursor
    ensures replies == FetchReplies(old(cursor.count), n)
    ensures cursor.count == old(cursor.count) + n
  {
    replies := [];
    var i := 0;
    while i < n
      invariant 0 <= i <= n
      invariant cursor.count == old(cursor.count) + i
      invariant FetchReplies(old(cursor.count), n) == replies + FetchReplies(cursor.count, n - i)
    {
      var more := cursor.FetchAsync();
      replies := replies + [more];
      i := i + 1;
    }
  }

  /** The fetch-until-false loop: reads Current after every true answer and
      stops at the first false one, which also advances the counter. */
  method DrainRecords(cursor: ResultCursor) returns (contents: seq<string>)
    modifies cursor
    ensures contents == RecordsFrom(old(cursor.count))
    ensures cursor.count == old(cursor.count) + |contents| + 1
  {
    contents := [];
    var more := cursor.FetchAsync();
    while more
      invariant cursor.count == old(cursor.count) + |contents| + 1
      invariant more == (cursor.count <= 3)
      invariant RecordsFrom(old(cursor.count)) == contents + RecordsFrom(cursor.count - 1)
      decreases if more then 4 - cursor.count else 0
    {
      var record := cursor.Current();
      contents := contents + [record.contents];
      more := cursor.FetchAsync();
    }
  }
}
