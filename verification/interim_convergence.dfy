// Interim texts of one producer, arriving in any order and more than once, through the router
// and on to the screen.
module InterimConvergence {
  import opened Prelude
  import opened OverlayIpc
  import OverlayState
  import opened OverlayStateLaws
  import opened OverlayRouting

  function TextMessage(id: Uuid, producer: Producer, a: Arrival): Message {
    InterimText(id, producer, a.number, a.text)
  }

  function TextMessages(id: Uuid, producer: Producer, arrivals: seq<Arrival>): seq<Message> {
    if arrivals == [] then []
    else [TextMessage(id, producer, arrivals[0])] + TextMessages(id, producer, arrivals[1..])
  }

  function RouteAll(r: Router, id: Uuid, producer: Producer, arrivals: seq<Arrival>): Router
    decreases |arrivals|
  {
    if arrivals == [] then r
    else RouteAll(RouteInterim(r, Some(id), TextMessage(id, producer, arrivals[0]), None), id, producer, arrivals[1..])
  }

  // The last number the router let through for `id`.
  function Last(r: Router, id: Uuid, producer: Producer): Option<nat> {
    if r.active == Some(id) && producer in r.lastSeq then Some(r.lastSeq[producer]) else None
  }

  predicate Newer(last: Option<nat>, number: nat) { last.Some? ==> last.value < number }

  // The arrivals that are newer than everything let through before them.
  function Passed(last: Option<nat>, arrivals: seq<Arrival>): (p: seq<Arrival>)
    decreases |arrivals|
  {
    if arrivals == [] then []
    else if Newer(last, arrivals[0].number) then [arrivals[0]] + Passed(Some(arrivals[0].number), arrivals[1..])
    else Passed(last, arrivals[1..])
  }

  // The router lets exactly those through, unchanged.
  lemma {:induction false} RouterLetsNewerThrough(r: Router, id: Uuid, producer: Producer, arrivals: seq<Arrival>)
    ensures RouteAll(r, id, producer, arrivals).sent
         == r.sent + TextMessages(id, producer, Passed(Last(r, id, producer), arrivals))
    decreases |arrivals|
  {
    if arrivals == [] {
      assert r.sent + [] == r.sent;
    } else {
      var m := TextMessage(id, producer, arrivals[0]);
      var s := RouteInterim(r, Some(id), m, None);
      RouterLetsNewerThrough(s, id, producer, arrivals[1..]);
      if Newer(Last(r, id, producer), arrivals[0].number) {
        var rest := Passed(Some(arrivals[0].number), arrivals[1..]);
        assert ([arrivals[0]] + rest)[1..] == rest;
        assert r.sent + [m] + TextMessages(id, producer, rest) == r.sent + ([m] + TextMessages(id, producer, rest));
      }
    }
  }

  predicate Increases(last: Option<nat>, p: seq<Arrival>) {
    && (forall i :: 0 <= i < |p| ==> Newer(last, p[i].number))
    && (forall i, j :: 0 <= i < j < |p| ==> p[i].number < p[j].number)
  }

  // What gets through carries strictly increasing numbers.
  lemma {:induction false} PassedIncreases(last: Option<nat>, arrivals: seq<Arrival>)
    ensures Increases(last, Passed(last, arrivals))
    decreases |arrivals|
  {
    if arrivals != [] {
      var a := arrivals[0];
      if Newer(last, a.number) {
        PassedIncreases(Some(a.number), arrivals[1..]);
        IncreasesFrom(last, a, Passed(Some(a.number), arrivals[1..]));
      } else {
        PassedIncreases(last, arrivals[1..]);
      }
    }
  }

  lemma IncreasesFrom(last: Option<nat>, a: Arrival, rest: seq<Arrival>)
    requires Newer(last, a.number) && Increases(Some(a.number), rest)
    ensures Increases(last, [a] + rest)
  {
    var p := [a] + rest;
    assert p[0] == a && forall i :: 0 < i < |p| ==> p[i] == rest[i - 1] && Newer(Some(a.number), rest[i - 1].number);
  }

  lemma IncreasingIsConsistent(last: Option<nat>, p: seq<Arrival>)
    requires p != [] && Increases(last, p)
    ensures OneTextPerNumber(p) && IsNewest(p, |p| - 1)
  {
    assert forall i, j :: 0 <= i < |p| && 0 <= j < |p| && p[i].number == p[j].number ==> i == j;
  }

  lemma {:induction false} NothingNewerPasses(n: nat, arrivals: seq<Arrival>)
    requires forall i :: 0 <= i < |arrivals| ==> arrivals[i].number <= n
    ensures Passed(Some(n), arrivals) == []
    decreases |arrivals|
  {
    if arrivals != [] { NothingNewerPasses(n, arrivals[1..]); }
  }

  // The newest arrival gets through, and is the last to do so.
  lemma {:induction false} NewestPassesLast(last: Option<nat>, arrivals: seq<Arrival>, k: nat)
    requires IsNewest(arrivals, k) && OneTextPerNumber(arrivals) && Newer(last, arrivals[k].number)
    ensures var p := Passed(last, arrivals);
            p != [] && p[|p| - 1].number == arrivals[k].number && p[|p| - 1].text == arrivals[k].text
    decreases |arrivals|
  {
    var a, rest := arrivals[0], arrivals[1..];
    if a.number == arrivals[k].number {
      NothingNewerPasses(a.number, rest);
      assert a.text == arrivals[k].text;
    } else {
      assert rest[k - 1] == arrivals[k];
      assert OneTextPerNumber(rest);
      NewestPassesLast(if Newer(last, a.number) then Some(a.number) else last, rest, k - 1);
    }
  }

  lemma {:induction false} InputsOfTexts(id: Uuid, producer: Producer, arrivals: seq<Arrival>)
    ensures |TextMessages(id, producer, arrivals)| == |arrivals| == |Texts(id, producer, arrivals)|
    ensures forall k :: 0 <= k < |arrivals| ==>
              Texts(id, producer, arrivals)[k] == Receive(TextMessages(id, producer, arrivals)[k], arrivals[k].at)
    decreases |arrivals|
  {
    if arrivals != [] { InputsOfTexts(id, producer, arrivals[1..]); }
  }

  lemma {:induction false} PassedShowsNewest(
    s: OverlayState.Screen, id: Uuid, producer: Producer, last: Option<nat>, arrivals: seq<Arrival>, k: nat)
    requires id != NIL && Unheard(s, id, producer)
    requires IsNewest(arrivals, k) && OneTextPerNumber(arrivals) && Newer(last, arrivals[k].number)
    ensures ShowsText(Feed(s, Texts(id, producer, Passed(last, arrivals))), id, producer,
                      arrivals[k].number, arrivals[k].text)
  {
    var p := Passed(last, arrivals);
    PassedIncreases(last, arrivals);
    NewestPassesLast(last, arrivals, k);
    IncreasingIsConsistent(last, p);
    ArrivalOrderDoesNotMatter(s, id, producer, p, |p| - 1);
  }

  // What the router sends of the arrivals is what the renderer is fed.
  predicate FedWhatWasSent(r: Router, id: Uuid, producer: Producer, arrivals: seq<Arrival>, passed: seq<Arrival>) {
    var inputs, messages := Texts(id, producer, passed), TextMessages(id, producer, passed);
    && RouteAll(r, id, producer, arrivals).sent == r.sent + messages
    && |inputs| == |messages|
    && forall i :: 0 <= i < |inputs| ==> inputs[i].Receive? && inputs[i].message == messages[i]
  }

  lemma {:induction false} RouterFeeds(r: Router, id: Uuid, producer: Producer, arrivals: seq<Arrival>)
    ensures FedWhatWasSent(r, id, producer, arrivals, Passed(Last(r, id, producer), arrivals))
  {
    RouterLetsNewerThrough(r, id, producer, arrivals);
    InputsOfTexts(id, producer, Passed(Last(r, id, producer), arrivals));
  }

  // Any arrival order with duplicates, of a producer the renderer has not heard for the session, ends
  // with the text of the largest number on the screen. The router may know the session already, as it
  // does once the daemon acknowledged it, as long as it has let nothing newer through.
  lemma {:induction false} AnyOrderEndsAtNewest(
    r: Router, s: OverlayState.Screen, id: Uuid, producer: Producer, arrivals: seq<Arrival>, k: nat)
    requires id != NIL && Unheard(s, id, producer)
    requires IsNewest(arrivals, k) && OneTextPerNumber(arrivals)
    requires Newer(Last(r, id, producer), arrivals[k].number)
    ensures var passed := Passed(Last(r, id, producer), arrivals);
            && FedWhatWasSent(r, id, producer, arrivals, passed)
            && ShowsText(Feed(s, Texts(id, producer, passed)), id, producer, arrivals[k].number, arrivals[k].text)
  {
    RouterFeeds(r, id, producer, arrivals);
    PassedShowsNewest(s, id, producer, Last(r, id, producer), arrivals, k);
  }

  // What gets through after `shown` ends at the newest of it and all arrivals.
  lemma {:induction false} PassedEndsAtNewest(shown: Arrival, arrivals: seq<Arrival>, k: nat)
    requires IsNewest([shown] + arrivals, k) && OneTextPerNumber([shown] + arrivals)
    ensures var p := [shown] + Passed(Some(shown.number), arrivals);
            && p[|p| - 1].number == ([shown] + arrivals)[k].number
            && p[|p| - 1].text == ([shown] + arrivals)[k].text
  {
    var all := [shown] + arrivals;
    assert all[0] == shown && forall i :: 0 < i < |all| ==> all[i] == arrivals[i - 1];
    assert forall i :: 0 <= i < |arrivals| ==> arrivals[i] == all[i + 1];
    if all[k].number <= shown.number {
      NothingNewerPasses(shown.number, arrivals);
    } else {
      NewestPassesLast(Some(shown.number), arrivals, k - 1);
    }
  }

  // The same for a running session: router and renderer are both at number `shown.number`, and the
  // screen shows its text, which is empty after a state event.
  lemma {:induction false} RunningSessionEndsAtNewest(
    r: Router, s: OverlayState.Screen, id: Uuid, producer: Producer, shown: Arrival, arrivals: seq<Arrival>, k: nat)
    requires id != NIL && ShowsText(s, id, producer, shown.number, shown.text)
    requires Last(r, id, producer) == Some(shown.number)
    requires IsNewest([shown] + arrivals, k) && OneTextPerNumber([shown] + arrivals)
    ensures var passed, newest := Passed(Some(shown.number), arrivals), ([shown] + arrivals)[k];
            && FedWhatWasSent(r, id, producer, arrivals, passed)
            && ShowsText(Feed(s, Texts(id, producer, passed)), id, producer, newest.number, newest.text)
  {
    var p := Passed(Some(shown.number), arrivals);
    RouterFeeds(r, id, producer, arrivals);
    PassedIncreases(Some(shown.number), arrivals);
    IncreasesFrom(None, shown, p);
    IncreasingIsConsistent(None, [shown] + p);
    ArrivalsEndAtNewest(s, id, producer, shown, p, |p|);
    PassedEndsAtNewest(shown, arrivals, k);
  }
}
