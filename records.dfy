/** An overtime record and the list operations the tracker performs on its
    record list (`unshift` at the head, `splice` of one position). */
module Records {
  import opened Duration

  /** A calendar day, as entered in the date field. */
  datatype Date = Date(year: int, month: int, day: int)

  /** One overtime session. `duration` is in hours and `earnings` is the pay
      computed when the record was created; neither is recomputed later. */
  datatype OTRecord = OTRecord(
    date: Date,
    startTime: ClockTime,
    endTime: ClockTime,
    duration: real,
    description: string,
    earnings: real)

  /** A record as the tracker creates it: its duration is the one its clock
      times give, and its pay is not negative. */
  predicate Consistent(r: OTRecord) {
    r.duration == DurationHours(r.startTime, r.endTime) && r.earnings >= 0.0
  }

  /** `splice(i, 1)` for a non-negative position: removes the element at `i`,
      keeping the others in order; a position past the end removes nothing. */
  function RemoveAt<T>(s: seq<T>, i: nat): (r: seq<T>)
    ensures i >= |s| ==> r == s
    ensures i < |s| ==> |r| == |s| - 1
    ensures i < |s| ==> forall j :: 0 <= j < i ==> r[j] == s[j]
    ensures i < |s| ==> forall j :: i <= j < |r| ==> r[j] == s[j + 1]
    ensures i < |s| ==> multiset(r) + multiset{s[i]} == multiset(s)
  {
    if i < |s| then
      assert s == s[..i] + [s[i]] + s[i + 1..];
      s[..i] + s[i + 1..]
    else s
  }

  /** Putting a record at the head and then removing position 0 gives the
      list back; every earlier record moves one position down. */
  lemma PrependThenRemove<T>(x: T, s: seq<T>)
    ensures RemoveAt([x] + s, 0) == s
    ensures forall i :: 0 <= i < |s| ==> ([x] + s)[i + 1] == s[i]
  {
  }
}
