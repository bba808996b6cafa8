/**
 * The reminder decision of `scheduleAlarm` and the pending-request store
 * of the notification centre it adds to. A request added under an
 * identifier that is already pending replaces it; nothing here removes one.
 */
module Alarms {
  import opened Wrappers

  /** A pending reminder: its identifier, how many minutes early it rings, the time it announces, and when it rings. */
  datatype Request = Request(identifier: string, offsetMinutes: int, time: real, fireAt: real)

  /** `"\(title) - \(dateTag)"`. */
  function Identifier(title: string, dateTag: string): (r: string)
    ensures |r| == |title| + 3 + |dateTag|
    ensures r[..|title|] == title && r[|r| - |dateTag|..] == dateTag
  {
    title + " - " + dateTag
  }

  /**
   * Date tags all have one length (`yyyy-MM-dd`), so an identifier names
   * one title on one day: there is at most one pending request per pair.
   */
  lemma IdentifierInjective(title1: string, tag1: string, title2: string, tag2: string)
    requires |tag1| == |tag2|
    requires Identifier(title1, tag1) == Identifier(title2, tag2)
    ensures title1 == title2 && tag1 == tag2
  {
    var id := Identifier(title1, tag1);
    assert |title1| == |title2|;
    assert title1 == id[..|title1|] == title2;
  }

  /**
   * `scheduleAlarm`'s decision. Nothing for a hidden entry or one whose
   * alarm is off; otherwise the reminder rings `offsetMinutes` minutes
   * before `time`, unless that moment is already past.
   */
  function AlarmRequest(title: string, time: real, offsetMinutes: int, isHidden: bool, alarm: bool,
                        dateTag: string, now: real): (r: Option<Request>)
    ensures r.Some? ==> !isHidden && alarm
    ensures r.Some? ==> r.value.identifier == Identifier(title, dateTag) && r.value.time == time && now <= r.value.fireAt
  {
    if isHidden || !alarm then None
    else
      var triggerDate := time - 60.0 * offsetMinutes as real;
      if triggerDate < now then None
      else Some(Request(Identifier(title, dateTag), offsetMinutes, time, triggerDate))
  }

  /** When a reminder is made, and what it holds: it rings at or after `now`, exactly the offset early. */
  lemma AlarmRequestMeaning(title: string, time: real, offsetMinutes: int, isHidden: bool, alarm: bool,
                            dateTag: string, now: real)
    ensures var r := AlarmRequest(title, time, offsetMinutes, isHidden, alarm, dateTag, now);
      (r.Some? <==> !isHidden && alarm && now + 60.0 * offsetMinutes as real <= time) &&
      (r.Some? ==> r.value.identifier == Identifier(title, dateTag) && r.value.time == time &&
                   r.value.fireAt + 60.0 * offsetMinutes as real == time && now <= r.value.fireAt)
  {
  }

  /** A reminder due exactly now is still made; one a moment earlier is not. */
  lemma AlarmAtNowIsKept(title: string, time: real, offsetMinutes: int, dateTag: string)
    ensures AlarmRequest(title, time, offsetMinutes, false, true, dateTag, time - 60.0 * offsetMinutes as real).Some?
    ensures AlarmRequest(title, time, offsetMinutes, false, true, dateTag, time - 60.0 * offsetMinutes as real + 1.0).None?
  {
  }

  /** The requests of an optional one. */
  function AsList(r: Option<Request>): (s: seq<Request>)
    ensures |s| <= 1
    ensures r.Some? ==> s == [r.value]
    ensures r.None? ==> s == []
  {
    if r.Some? then [r.value] else []
  }

  /** The pending store after adding `reqs` in order. */
  function Apply(pending: map<string, Request>, reqs: seq<Request>): map<string, Request> {
    if reqs == [] then pending
    else Apply(pending, reqs[..|reqs| - 1])[reqs[|reqs| - 1].identifier := reqs[|reqs| - 1]]
  }

  /** Nothing pending is removed, and every added identifier is pending afterwards; nothing else is. */
  lemma {:induction false} ApplyKeys(pending: map<string, Request>, reqs: seq<Request>)
    ensures Apply(pending, reqs).Keys == pending.Keys + set i | 0 <= i < |reqs| :: reqs[i].identifier
  {
    if reqs != [] {
      var init := reqs[..|reqs| - 1];
      ApplyKeys(pending, init);
      var ids := set i | 0 <= i < |reqs| :: reqs[i].identifier;
      var initIds := set i | 0 <= i < |init| :: init[i].identifier;
      assert ids == initIds + {reqs[|reqs| - 1].identifier} by {
        forall id | id in ids ensures id in initIds + {reqs[|reqs| - 1].identifier} {
          var i :| 0 <= i < |reqs| && reqs[i].identifier == id;
          if i < |init| {
            assert init[i] == reqs[i];
          }
        }
        forall id | id in initIds ensures id in ids {
          var i :| 0 <= i < |init| && init[i].identifier == id;
          assert reqs[i] == init[i];
        }
      }
    }
  }

  /** Adding two lists in turn is adding their concatenation. */
  lemma {:induction false} ApplyConcat(pending: map<string, Request>, xs: seq<Request>, ys: seq<Request>)
    ensures Apply(pending, xs + ys) == Apply(Apply(pending, xs), ys)
    decreases |ys|
  {
    if ys != [] {
      var init, last := ys[..|ys| - 1], ys[|ys| - 1];
      assert (xs + ys)[..|xs + ys| - 1] == xs + init;
      assert (xs + ys)[|xs + ys| - 1] == last;
      assert Apply(pending, xs + ys) == Apply(pending, xs + init)[last.identifier := last];
      ApplyConcat(pending, xs, init);
      assert Apply(Apply(pending, xs), ys) == Apply(Apply(pending, xs), init)[last.identifier := last];
    } else {
      assert xs + ys == xs;
    }
  }

  /** The last position in `reqs` whose request has identifier `id`. */
  function LastWith(reqs: seq<Request>, id: string): (r: Option<nat>)
    ensures r.Some? ==> r.value < |reqs| && reqs[r.value].identifier == id
    ensures r.Some? ==> forall j :: r.value < j < |reqs| ==> reqs[j].identifier != id
    ensures r.None? ==> forall j :: 0 <= j < |reqs| ==> reqs[j].identifier != id
  {
    if reqs == [] then None
    else if reqs[|reqs| - 1].identifier == id then Some(|reqs| - 1)
    else LastWith(reqs[..|reqs| - 1], id)
  }

  /** Under each identifier the store holds the last request added with it, or what was pending before. */
  lemma {:induction false} ApplyLookup(pending: map<string, Request>, reqs: seq<Request>, id: string)
    ensures LastWith(reqs, id).Some? ==>
      id in Apply(pending, reqs) && Apply(pending, reqs)[id] == reqs[LastWith(reqs, id).value]
    ensures LastWith(reqs, id).None? ==>
      (id in Apply(pending, reqs) <==> id in pending) &&
      (id in pending ==> Apply(pending, reqs)[id] == pending[id])
  {
    if reqs != [] && reqs[|reqs| - 1].identifier != id {
      ApplyLookup(pending, reqs[..|reqs| - 1], id);
    }
  }

  /** Scheduling the same requests again leaves the store as it was. */
  lemma ApplyIdempotent(pending: map<string, Request>, reqs: seq<Request>)
    ensures Apply(Apply(pending, reqs), reqs) == Apply(pending, reqs)
  {
    var once := Apply(pending, reqs);
    var twice := Apply(once, reqs);
    forall id
      ensures (id in twice <==> id in once) && (id in twice ==> twice[id] == once[id])
    {
      ApplyLookup(once, reqs, id);
      ApplyLookup(pending, reqs, id);
    }
  }

  /** The `UNUserNotificationCenter` pending requests, keyed by identifier. */
  class NotificationCenter {
    var pending: map<string, Request>

    constructor ()
      ensures pending == map[]
    {
      pending := map[];
    }

    /** `add(_:)`: a request replaces any pending one with the same identifier. */
    method Add(request: Request)
      modifies this
      ensures pending == Apply(old(pending), [request])
    {
      pending := pending[request.identifier := request];
    }
  }
}
