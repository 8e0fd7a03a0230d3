/** One polling cycle of the penalty monitor: keep the live matches, name
    their teams, classify every event and raise at most one alert per new key,
    recording the key so that no later cycle raises it again. */
module Cycle {
  import opened Feed
  import opened Rules
  import Keys
  import Strings

  // ============================================================ live matches

  /** `status in ['FT', 'AOT', 'POST']`: finished, after extra time, postponed. */
  predicate IsFinished(m: Match)
  {
    m.status == Some(Text("FT")) || m.status == Some(Text("AOT")) || m.status == Some(Text("POST"))
  }

  /** `str(jogo.get('id'))`: an absent id prints as "None". */
  function FixtureId(m: Match): string
  {
    FieldText(m.id, "None")
  }

  /** One entry of the `jogos_ativos` dictionary, its key included. */
  datatype Entry = Entry(id: string, participants: seq<Participant>, events: seq<Event>, status: Option<Value>)

  function EntryOf(m: Match): Entry
  {
    Entry(FixtureId(m), m.participants, m.events, m.status)
  }

  predicate HasId(d: seq<Entry>, id: string)
  {
    exists j :: 0 <= j < |d| && d[j].id == id
  }

  ghost predicate DistinctIds(d: seq<Entry>)
  {
    forall i, j :: 0 <= i < j < |d| ==> d[i].id != d[j].id
  }

  lemma HasIdTail(d: seq<Entry>, id: string)
    requires HasId(d, id) && d[0].id != id
    ensures HasId(d[1..], id)
  {
    var j :| 0 <= j < |d| && d[j].id == id;
    assert d[1..][j - 1] == d[j];
  }

  /** Position of the first entry with the given key. */
  function IndexOf(d: seq<Entry>, id: string): (i: nat)
    requires HasId(d, id)
    ensures i < |d| && d[i].id == id
    ensures forall j :: 0 <= j < i ==> d[j].id != id
  {
    if d[0].id == id then 0
    else
      HasIdTail(d, id);
      1 + IndexOf(d[1..], id)
  }

  /** `jogos_ativos[id] = entry`: a key already present keeps its place and
      takes the new value; a new key goes to the end. */
  function Assign(d: seq<Entry>, e: Entry): seq<Entry>
  {
    if HasId(d, e.id) then d[IndexOf(d, e.id) := e] else d + [e]
  }

  /** Assigning keeps the keys distinct, puts the new entry in and takes out
      exactly the old entry under the same key. */
  lemma AssignContents(d: seq<Entry>, e: Entry)
    requires DistinctIds(d)
    ensures DistinctIds(Assign(d, e))
    ensures forall x :: x in Assign(d, e) <==> x == e || (x in d && x.id != e.id)
  {
    var r := Assign(d, e);
    if HasId(d, e.id) {
      var k := IndexOf(d, e.id);
      assert r[k] == e;
      forall i, j | 0 <= i < j < |r| ensures r[i].id != r[j].id {
        if i != k && j != k {
          assert r[i] == d[i] && r[j] == d[j];
        }
      }
      forall x | x in d && x.id != e.id ensures x in r {
        var i :| 0 <= i < |d| && d[i] == x;
        assert r[i] == x;
      }
      forall x | x in r && x != e ensures x in d && x.id != e.id {
        var i :| 0 <= i < |r| && r[i] == x;
        assert i != k;
      }
    } else {
      forall x | x in d ensures x.id != e.id {
        var i :| 0 <= i < |d| && d[i] == x;
      }
    }
  }

  /** The dictionary built from the feed, match by match. */
  function Collected(feed: seq<Match>): seq<Entry>
  {
    if feed == [] then []
    else
      var d := Collected(feed[..|feed| - 1]);
      var m := feed[|feed| - 1];
      if IsFinished(m) then d else Assign(d, EntryOf(m))
  }

  /** The live matches of the feed, in order. */
  function Live(feed: seq<Match>): seq<Match>
  {
    if feed == [] then []
    else
      var rest := Live(feed[..|feed| - 1]);
      var m := feed[|feed| - 1];
      if IsFinished(m) then rest else rest + [m]
  }

  /** The building loop of `check_events` (bot/events.py lines 119-131). */
  method CollectActive(feed: seq<Match>) returns (active: seq<Entry>)
    ensures active == Collected(feed)
  {
    active := [];
    for i := 0 to |feed|
      invariant active == Collected(feed[..i])
    {
      assert feed[..i + 1][..i] == feed[..i];
      var m := feed[i];
      if IsFinished(m) {
        continue;
      }
      active := Assign(active, EntryOf(m));
    }
    assert feed[..|feed|] == feed;
  }

  /** The dictionary holds each key once. */
  lemma {:induction false} CollectedDistinct(feed: seq<Match>)
    ensures DistinctIds(Collected(feed))
  {
    if feed != [] {
      CollectedDistinct(feed[..|feed| - 1]);
      AssignContents(Collected(feed[..|feed| - 1]), EntryOf(feed[|feed| - 1]));
    }
  }

  /** Match `j` is live and no later live match has its id. */
  ghost predicate LastLive(feed: seq<Match>, j: int)
  {
    0 <= j < |feed| && !IsFinished(feed[j])
    && forall k :: j < k < |feed| && !IsFinished(feed[k]) ==> FixtureId(feed[k]) != FixtureId(feed[j])
  }

  /** Every entry of the dictionary is the last live match under its id. */
  lemma {:induction false} CollectedSound(feed: seq<Match>, x: Entry)
    requires x in Collected(feed)
    ensures exists j :: LastLive(feed, j) && x == EntryOf(feed[j])
  {
    var init := feed[..|feed| - 1];
    var m := feed[|feed| - 1];
    var d := Collected(init);
    if !IsFinished(m) && x == EntryOf(m) {
      assert LastLive(feed, |feed| - 1);
    } else {
      assert x in d && (IsFinished(m) || x.id != FixtureId(m)) by {
        if !IsFinished(m) {
          CollectedDistinct(init);
          AssignContents(d, EntryOf(m));
        }
      }
      CollectedSound(init, x);
      var j :| LastLive(init, j) && x == EntryOf(init[j]);
      forall k | j < k < |feed| && !IsFinished(feed[k])
        ensures FixtureId(feed[k]) != FixtureId(feed[j])
      {
        if k < |feed| - 1 {
          assert feed[k] == init[k];
        }
      }
      assert feed[j] == init[j];
    }
  }

  /** The last live match under each id is in the dictionary. */
  lemma {:induction false} CollectedComplete(feed: seq<Match>, j: int)
    requires LastLive(feed, j)
    ensures EntryOf(feed[j]) in Collected(feed)
  {
    var init := feed[..|feed| - 1];
    var m := feed[|feed| - 1];
    CollectedDistinct(init);
    AssignContents(Collected(init), EntryOf(m));
    if j < |feed| - 1 {
      assert init[j] == feed[j];
      assert LastLive(init, j);
      CollectedComplete(init, j);
    }
  }

  /** Finished matches leave the dictionary as if they were not in the feed. */
  lemma {:induction false} CollectedIgnoresFinished(feed: seq<Match>)
    ensures Collected(feed) == Collected(Live(feed))
  {
    if feed != [] {
      var init := feed[..|feed| - 1];
      var m := feed[|feed| - 1];
      CollectedIgnoresFinished(init);
      if !IsFinished(m) {
        var live := Live(init) + [m];
        assert live[..|live| - 1] == Live(init);
      }
    }
  }

  // ============================================================= team names

  /** `t.get('meta', {}).get('location') == side` for a participant object. */
  predicate PlaysAt(p: Participant, side: string)
  {
    p.Team? && p.side == Some(Text(side))
  }

  /** `t.get('name')` as an f-string prints it: an absent name is "None". */
  function NameOf(p: Participant): string
    requires p.Team?
  {
    FieldText(p.name, "None")
  }

  /** The `next(...)` lookup: the name of the first participant playing on
      `side`, or "Desconhecido" when there is none. */
  function TeamName(ps: seq<Participant>, side: string): (name: string)
    ensures (forall i :: 0 <= i < |ps| ==> !PlaysAt(ps[i], side)) ==> name == "Desconhecido"
    ensures (exists i :: 0 <= i < |ps| && PlaysAt(ps[i], side)) ==>
      exists i :: 0 <= i < |ps| && PlaysAt(ps[i], side) && name == NameOf(ps[i])
        && forall j :: 0 <= j < i ==> !PlaysAt(ps[j], side)
  {
    if ps == [] then "Desconhecido"
    else if PlaysAt(ps[0], side) then NameOf(ps[0])
    else
      var name := TeamName(ps[1..], side);
      assert forall i :: 1 <= i < |ps| ==> ps[i] == ps[1..][i - 1];
      name
  }

  // ================================================================ alerts

  /** The match an event belongs to, as its alert names it. */
  datatype Fixture = Fixture(id: string, home: string, away: string)

  function FixtureOf(e: Entry): Fixture
  {
    Fixture(e.id, TeamName(e.participants, "home"), TeamName(e.participants, "away"))
  }

  /** Which of the three rules raised an alert. */
  datatype Rule = ExactAddition | OrdinalPenalty | FoulOrCardInBox

  /** The event line of an alert: a canned fragment or the addition itself. */
  datatype Detail = Canned(notice: Notice) | Verbatim(addition: string)

  /** A message sent to the channel, with the key recorded for it. */
  datatype Alert = Alert(
    rule: Rule, home: string, away: string, time: string,
    detail: Detail, place: Option<string>, key: string)

  /** The dedup set and the messages sent so far. */
  datatype Tally = Tally(notified: set<string>, alerts: seq<Alert>)

  /** `chave`: the key of the event itself. */
  function KeyOf(fixture: string, ev: Event): string
  {
    Keys.EventKey(fixture, Addition(ev), Keys.FormatTime(ev))
  }

  /** `chave_area`: the key of an in-box foul or card. */
  function AreaKeyOf(fixture: string, ev: Event): string
  {
    Keys.EventKey(fixture, Kind(ev) + "_area", Keys.FormatTime(ev))
  }

  /** The alert an event raises when none of its keys is recorded yet. */
  function AlertFor(fx: Fixture, ev: Event): Option<Alert>
  {
    var time := Keys.FormatTime(ev);
    match Classify(ev)
    case Exact(n) =>
      Some(Alert(ExactAddition, fx.home, fx.away, time, Canned(n), None, KeyOf(fx.id, ev)))
    case Ordinal =>
      Some(Alert(OrdinalPenalty, fx.home, fx.away, time, Verbatim(Addition(ev)), None, KeyOf(fx.id, ev)))
    case InBox(n) =>
      Some(Alert(FoulOrCardInBox, fx.home, fx.away, time, Canned(n),
                 Some(FieldText(ev.location, "N/A")), AreaKeyOf(fx.id, ev)))
    case Ignored => None
  }

  /** One event: skipped when its own key is recorded; otherwise the alert
      its rule raises, unless that alert's key is recorded. */
  function Step(fx: Fixture, ev: Event, t: Tally): Tally
  {
    if KeyOf(fx.id, ev) in t.notified then t
    else
      match AlertFor(fx, ev)
      case None => t
      case Some(a) => if a.key in t.notified then t else Tally(t.notified + {a.key}, t.alerts + [a])
  }

  /** The events of one match, in feed order. */
  function OverEvents(fx: Fixture, evs: seq<Event>, t: Tally): Tally
  {
    if evs == [] then t else Step(fx, evs[|evs| - 1], OverEvents(fx, evs[..|evs| - 1], t))
  }

  /** The matches of the dictionary, in its order. */
  function OverMatches(active: seq<Entry>, t: Tally): Tally
  {
    if active == [] then t
    else
      var e := active[|active| - 1];
      OverEvents(FixtureOf(e), e.events, OverMatches(active[..|active| - 1], t))
  }

  /** One cycle over a feed snapshot. */
  function OneCycle(feed: seq<Match>, t: Tally): Tally
  {
    OverMatches(Collected(feed), t)
  }

  /** One poll: a response without a valid match list processes nothing. */
  function Poll(data: Option<seq<Match>>, t: Tally): Tally
  {
    match data
    case None => t
    case Some(feed) => OneCycle(feed, t)
  }

  /** Consecutive polls sharing one dedup set. */
  function Run(polls: seq<Option<seq<Match>>>, t: Tally): Tally
  {
    if polls == [] then t else Poll(polls[|polls| - 1], Run(polls[..|polls| - 1], t))
  }

  /** The body of the event loop of `check_events` (bot/events.py lines 150-198). */
  method HandleEvent(fx: Fixture, ev: Event, notified0: set<string>, alerts0: seq<Alert>, processed0: nat)
    returns (notified: set<string>, alerts: seq<Alert>, processed: nat)
    ensures Tally(notified, alerts) == Step(fx, ev, Tally(notified0, alerts0))
    ensures processed == processed0 + (|alerts| - |alerts0|)
  {
    notified, alerts, processed := notified0, alerts0, processed0;
    var addition := Addition(ev);
    var kind := Kind(ev);
    var time := Keys.FormatTime(ev);
    var key := Keys.EventKey(fx.id, addition, time);
    if key in notified {
      return;
    }
    ClassifyFirstMatchWins(ev);
    if addition in Captured {
      var alert := Alert(ExactAddition, fx.home, fx.away, time, Canned(Captured[addition]), None, key);
      assert AlertFor(fx, ev) == Some(alert);
      alerts := alerts + [alert];
      notified := notified + {key};
      processed := processed + 1;
    } else if IsOrdinalPenalty(addition) {
      var alert := Alert(OrdinalPenalty, fx.home, fx.away, time, Verbatim(addition), None, key);
      assert AlertFor(fx, ev) == Some(alert);
      alerts := alerts + [alert];
      notified := notified + {key};
      processed := processed + 1;
    } else if kind in BoxTypes && OccurredInBox(ev) {
      var areaKey := Keys.EventKey(fx.id, kind + "_area", time);
      if areaKey !in notified {
        BoxTypesAreCaptured();
        var place := FieldText(ev.location, "N/A");
        var alert := Alert(FoulOrCardInBox, fx.home, fx.away, time, Canned(Captured[kind]), Some(place), areaKey);
        assert AlertFor(fx, ev) == Some(alert);
        alerts := alerts + [alert];
        notified := notified + {areaKey};
        processed := processed + 1;
      }
    }
  }

  /** The event loop of one active match (bot/events.py lines 149-198). */
  method HandleMatch(fx: Fixture, events: seq<Event>, notified0: set<string>, alerts0: seq<Alert>, processed0: nat)
    returns (notified: set<string>, alerts: seq<Alert>, processed: nat)
    ensures Tally(notified, alerts) == OverEvents(fx, events, Tally(notified0, alerts0))
    ensures processed == processed0 + (|alerts| - |alerts0|)
  {
    notified, alerts, processed := notified0, alerts0, processed0;
    for j := 0 to |events|
      invariant Tally(notified, alerts) == OverEvents(fx, events[..j], Tally(notified0, alerts0))
      invariant processed == processed0 + (|alerts| - |alerts0|)
    {
      assert events[..j + 1][..j] == events[..j];
      notified, alerts, processed := HandleEvent(fx, events[j], notified, alerts, processed);
    }
    assert events[..|events|] == events;
  }

  /** The loop over the active matches (bot/events.py lines 133-198), from a
      loaded set and no alerts sent yet. */
  method HandleMatches(active: seq<Entry>, notified0: set<string>)
    returns (notified: set<string>, alerts: seq<Alert>, processed: nat)
    ensures Tally(notified, alerts) == OverMatches(active, Tally(notified0, []))
    ensures processed == |alerts|
  {
    notified, alerts, processed := notified0, [], 0;
    for i := 0 to |active|
      invariant Tally(notified, alerts) == OverMatches(active[..i], Tally(notified0, []))
      invariant processed == |alerts|
    {
      assert active[..i + 1][..i] == active[..i];
      var entry := active[i];
      notified, alerts, processed := HandleMatch(FixtureOf(entry), entry.events, notified, alerts, processed);
    }
    assert active[..|active|] == active;
  }

  /** The filter, classify and dedup body of `check_events` for one poll
      (bot/events.py lines 113-199; the nested loops are HandleMatches,
      HandleMatch and HandleEvent): the new set and the alerts sent are those
      `Poll` defines, and `processed` counts the alerts. */
  method RunCycle(data: Option<seq<Match>>, notified0: set<string>)
    returns (notified: set<string>, alerts: seq<Alert>, processed: nat)
    ensures Tally(notified, alerts) == Poll(data, Tally(notified0, []))
    ensures processed == |alerts|
  {
    notified, alerts, processed := notified0, [], 0;
    if data.None? {
      return;
    }
    var active := CollectActive(data.value);
    notified, alerts, processed := HandleMatches(active, notified0);
  }

  // ========================================================== deduplication

  /** `t1` is `t0` with new alerts appended, each recording one key that was
      not recorded before, no two of them the same key. */
  ghost predicate Extends(t0: Tally, t1: Tally)
  {
    && t0.notified <= t1.notified
    && |t0.alerts| <= |t1.alerts|
    && t1.alerts[..|t0.alerts|] == t0.alerts
    && |t1.notified| == |t0.notified| + (|t1.alerts| - |t0.alerts|)
    && (forall i :: |t0.alerts| <= i < |t1.alerts| ==>
          t1.alerts[i].key in t1.notified && t1.alerts[i].key !in t0.notified)
    && (forall i, j :: |t0.alerts| <= i < j < |t1.alerts| ==> t1.alerts[i].key != t1.alerts[j].key)
  }

  lemma ExtendsTransitive(t0: Tally, t1: Tally, t2: Tally)
    requires Extends(t0, t1) && Extends(t1, t2)
    ensures Extends(t0, t2)
  {
    forall i | 0 <= i < |t1.alerts| ensures t2.alerts[i] == t1.alerts[i] {
      assert t2.alerts[..|t1.alerts|][i] == t2.alerts[i];
    }
    assert t2.alerts[..|t0.alerts|] == t1.alerts[..|t0.alerts|];
  }

  /** One event raises at most one alert, and only under a new key. */
  lemma StepExtends(fx: Fixture, ev: Event, t: Tally)
    ensures Extends(t, Step(fx, ev, t))
    ensures |Step(fx, ev, t).alerts| <= |t.alerts| + 1
  {
    var r := Step(fx, ev, t);
    if r != t {
      var a := AlertFor(fx, ev).value;
      assert r.alerts[..|t.alerts|] == t.alerts;
      assert |t.notified + {a.key}| == |t.notified| + 1;
    }
  }

  /** Over a match's events: at most one alert per event, each under a new key. */
  lemma {:induction false} OverEventsExtends(fx: Fixture, evs: seq<Event>, t: Tally)
    ensures Extends(t, OverEvents(fx, evs, t))
    ensures |OverEvents(fx, evs, t).alerts| <= |t.alerts| + |evs|
  {
    if evs != [] {
      var mid := OverEvents(fx, evs[..|evs| - 1], t);
      OverEventsExtends(fx, evs[..|evs| - 1], t);
      StepExtends(fx, evs[|evs| - 1], mid);
      ExtendsTransitive(t, mid, OverEvents(fx, evs, t));
    }
  }

  lemma {:induction false} OverMatchesExtends(active: seq<Entry>, t: Tally)
    ensures Extends(t, OverMatches(active, t))
  {
    if active != [] {
      var e := active[|active| - 1];
      var mid := OverMatches(active[..|active| - 1], t);
      OverMatchesExtends(active[..|active| - 1], t);
      OverEventsExtends(FixtureOf(e), e.events, mid);
      ExtendsTransitive(t, mid, OverMatches(active, t));
    }
  }

  /** A cycle only adds keys, one per alert, none already recorded: the
      counter of alerts equals the number of keys added. */
  lemma CycleExtends(feed: seq<Match>, t: Tally)
    ensures Extends(t, OneCycle(feed, t))
  {
    OverMatchesExtends(Collected(feed), t);
  }

  /** One poll from a loaded set: the set only grows, and by exactly as many
      keys as alerts were sent. */
  lemma PollCounts(data: Option<seq<Match>>, notified0: set<string>)
    ensures notified0 <= Poll(data, Tally(notified0, [])).notified
    ensures |Poll(data, Tally(notified0, [])).notified| == |notified0| + |Poll(data, Tally(notified0, [])).alerts|
  {
    if data.Some? {
      CycleExtends(data.value, Tally(notified0, []));
    }
  }

  /** Across any number of polls no key is alerted twice, and none that was
      loaded at start-up is alerted at all. */
  lemma {:induction false} RunNeverRepeats(polls: seq<Option<seq<Match>>>, t: Tally)
    ensures Extends(t, Run(polls, t))
  {
    if polls != [] {
      var mid := Run(polls[..|polls| - 1], t);
      RunNeverRepeats(polls[..|polls| - 1], t);
      if polls[|polls| - 1].Some? {
        CycleExtends(polls[|polls| - 1].value, mid);
        ExtendsTransitive(t, mid, Run(polls, t));
      }
    }
  }

  // =========================================================== idempotence

  /** The key that an event's alert records. */
  function RecordedKey(fixture: string, ev: Event): string
  {
    if Classify(ev).InBox? then AreaKeyOf(fixture, ev) else KeyOf(fixture, ev)
  }

  /** The event raises nothing against the dedup set `s`. */
  ghost predicate Covered(fixture: string, ev: Event, s: set<string>)
  {
    Classify(ev).Ignored? || KeyOf(fixture, ev) in s || RecordedKey(fixture, ev) in s
  }

  lemma StepCovers(fx: Fixture, ev: Event, t: Tally)
    ensures Covered(fx.id, ev, Step(fx, ev, t).notified)
    ensures Covered(fx.id, ev, t.notified) ==> Step(fx, ev, t) == t
  {
  }

  ghost predicate EventsCovered(fixture: string, evs: seq<Event>, s: set<string>)
  {
    forall i :: 0 <= i < |evs| ==> Covered(fixture, evs[i], s)
  }

  /** After a match's events are processed, none of them would raise anything. */
  lemma {:induction false} OverEventsCovers(fx: Fixture, evs: seq<Event>, t: Tally)
    ensures EventsCovered(fx.id, evs, OverEvents(fx, evs, t).notified)
  {
    if evs != [] {
      var init := evs[..|evs| - 1];
      var mid := OverEvents(fx, init, t);
      OverEventsCovers(fx, init, t);
      StepExtends(fx, evs[|evs| - 1], mid);
      StepCovers(fx, evs[|evs| - 1], mid);
      forall i | 0 <= i < |evs| - 1 ensures Covered(fx.id, evs[i], OverEvents(fx, evs, t).notified) {
        assert evs[i] == init[i];
      }
    }
  }

  /** Events that are all covered change nothing. */
  lemma {:induction false} OverEventsSettled(fx: Fixture, evs: seq<Event>, t: Tally)
    requires EventsCovered(fx.id, evs, t.notified)
    ensures OverEvents(fx, evs, t) == t
  {
    if evs != [] {
      var init := evs[..|evs| - 1];
      assert EventsCovered(fx.id, init, t.notified) by {
        forall i | 0 <= i < |init| ensures Covered(fx.id, init[i], t.notified) {
          assert init[i] == evs[i];
        }
      }
      OverEventsSettled(fx, init, t);
      StepCovers(fx, evs[|evs| - 1], t);
    }
  }

  ghost predicate MatchesCovered(active: seq<Entry>, s: set<string>)
  {
    forall i :: 0 <= i < |active| ==> EventsCovered(active[i].id, active[i].events, s)
  }

  lemma {:induction false} OverMatchesCovers(active: seq<Entry>, t: Tally)
    ensures MatchesCovered(active, OverMatches(active, t).notified)
  {
    if active != [] {
      var init := active[..|active| - 1];
      var e := active[|active| - 1];
      var mid := OverMatches(init, t);
      var r := OverMatches(active, t);
      OverMatchesCovers(init, t);
      OverEventsCovers(FixtureOf(e), e.events, mid);
      OverEventsExtends(FixtureOf(e), e.events, mid);
      forall i | 0 <= i < |active| ensures EventsCovered(active[i].id, active[i].events, r.notified) {
        if i < |active| - 1 {
          assert active[i] == init[i];
          forall k | 0 <= k < |init[i].events|
            ensures Covered(init[i].id, init[i].events[k], r.notified)
          {
            assert Covered(init[i].id, init[i].events[k], mid.notified);
          }
        }
      }
    }
  }

  lemma {:induction false} OverMatchesSettled(active: seq<Entry>, t: Tally)
    requires MatchesCovered(active, t.notified)
    ensures OverMatches(active, t) == t
  {
    if active != [] {
      var init := active[..|active| - 1];
      var e := active[|active| - 1];
      assert MatchesCovered(init, t.notified) by {
        forall i | 0 <= i < |init| ensures EventsCovered(init[i].id, init[i].events, t.notified) {
          assert init[i] == active[i];
        }
      }
      OverMatchesSettled(init, t);
      OverEventsSettled(FixtureOf(e), e.events, t);
    }
  }

  /** Processing the same snapshot a second time raises no alert and records
      no key: the first pass recorded every key the second would need. */
  lemma CycleIdempotent(feed: seq<Match>, t: Tally)
    ensures OneCycle(feed, OneCycle(feed, t)) == OneCycle(feed, t)
    ensures OneCycle(feed, Tally(OneCycle(feed, t).notified, [])).alerts == []
  {
    var r := OneCycle(feed, t);
    OverMatchesCovers(Collected(feed), t);
    OverMatchesSettled(Collected(feed), r);
    OverMatchesSettled(Collected(feed), Tally(r.notified, []));
  }

  /** A feed whose matches are all finished, after extra time or postponed
      raises nothing and records nothing. */
  lemma FinishedMatchesRaiseNothing(feed: seq<Match>, t: Tally)
    requires forall i :: 0 <= i < |feed| ==> IsFinished(feed[i])
    ensures OneCycle(feed, t) == t
  {
    assert Live(feed) == [] by {
      LiveOfFinished(feed);
    }
    CollectedIgnoresFinished(feed);
  }

  lemma {:induction false} LiveOfFinished(feed: seq<Match>)
    requires forall i :: 0 <= i < |feed| ==> IsFinished(feed[i])
    ensures Live(feed) == []
  {
    if feed != [] {
      LiveOfFinished(feed[..|feed| - 1]);
    }
  }

  // ============================================================ stored keys

  /** Every recorded key and every alert's key is a normalised key. */
  ghost predicate KeysNormal(t: Tally)
  {
    (forall k :: k in t.notified ==> Keys.IsNormal(k))
    && (forall i :: 0 <= i < |t.alerts| ==> Keys.IsNormal(t.alerts[i].key))
  }

  lemma {:induction false} OverEventsKeepsNormal(fx: Fixture, evs: seq<Event>, t: Tally)
    requires KeysNormal(t)
    ensures KeysNormal(OverEvents(fx, evs, t))
  {
    if evs != [] {
      OverEventsKeepsNormal(fx, evs[..|evs| - 1], t);
      StepKeepsNormal(fx, evs[|evs| - 1], OverEvents(fx, evs[..|evs| - 1], t));
    }
  }

  /** The key an event records is built by `EventKey`, so it is normal. */
  lemma StepKeepsNormal(fx: Fixture, ev: Event, t: Tally)
    requires KeysNormal(t)
    ensures KeysNormal(Step(fx, ev, t))
  {
    var r := Step(fx, ev, t);
    if r != t {
      var a := AlertFor(fx, ev).value;
      assert a.key == KeyOf(fx.id, ev) || a.key == AreaKeyOf(fx.id, ev);
      assert r == Tally(t.notified + {a.key}, t.alerts + [a]);
    }
  }

  /** A set loaded from the key file stays a set of normalised keys through
      every poll, so saving and re-loading it gives it back unchanged. */
  lemma {:induction false} RunKeepsKeysNormal(polls: seq<Option<seq<Match>>>, t: Tally)
    requires KeysNormal(t)
    ensures KeysNormal(Run(polls, t))
  {
    if polls != [] {
      var mid := Run(polls[..|polls| - 1], t);
      RunKeepsKeysNormal(polls[..|polls| - 1], t);
      if polls[|polls| - 1].Some? {
        OverMatchesKeepsNormal(Collected(polls[|polls| - 1].value), mid);
      }
    }
  }

  lemma {:induction false} OverMatchesKeepsNormal(active: seq<Entry>, t: Tally)
    requires KeysNormal(t)
    ensures KeysNormal(OverMatches(active, t))
  {
    if active != [] {
      var e := active[|active| - 1];
      OverMatchesKeepsNormal(active[..|active| - 1], t);
      OverEventsKeepsNormal(FixtureOf(e), e.events, OverMatches(active[..|active| - 1], t));
    }
  }

  // ================================================ alerts sent earlier

  /** `t` with the alerts `a` sent before it. */
  function Prepend(a: seq<Alert>, t: Tally): Tally
  {
    Tally(t.notified, a + t.alerts)
  }

  /** What an event does depends on the dedup set only, not on the alerts
      already sent. */
  lemma StepIgnoresSent(fx: Fixture, ev: Event, a: seq<Alert>, t: Tally)
    ensures Step(fx, ev, Prepend(a, t)) == Prepend(a, Step(fx, ev, t))
  {
    var r := Step(fx, ev, t);
    if r != t {
      var x := AlertFor(fx, ev).value;
      assert a + (t.alerts + [x]) == (a + t.alerts) + [x];
    }
  }

  lemma {:induction false} OverEventsIgnoresSent(fx: Fixture, evs: seq<Event>, a: seq<Alert>, t: Tally)
    ensures OverEvents(fx, evs, Prepend(a, t)) == Prepend(a, OverEvents(fx, evs, t))
  {
    if evs != [] {
      var init := evs[..|evs| - 1];
      OverEventsIgnoresSent(fx, init, a, t);
      StepIgnoresSent(fx, evs[|evs| - 1], a, OverEvents(fx, init, t));
    }
  }

  lemma {:induction false} OverMatchesIgnoresSent(active: seq<Entry>, a: seq<Alert>, t: Tally)
    ensures OverMatches(active, Prepend(a, t)) == Prepend(a, OverMatches(active, t))
  {
    if active != [] {
      var init := active[..|active| - 1];
      var e := active[|active| - 1];
      OverMatchesIgnoresSent(init, a, t);
      OverEventsIgnoresSent(FixtureOf(e), e.events, a, OverMatches(init, t));
    }
  }

  /** A poll from set `s` with alerts `a` already sent sends the same alerts
      and records the same keys as a poll from `s` with none sent. */
  lemma PollIgnoresSent(data: Option<seq<Match>>, s: set<string>, a: seq<Alert>)
    ensures Poll(data, Tally(s, a))
      == Tally(Poll(data, Tally(s, [])).notified, a + Poll(data, Tally(s, [])).alerts)
  {
    assert Tally(s, a) == Prepend(a, Tally(s, []));
    if data.Some? {
      OverMatchesIgnoresSent(Collected(data.value), a, Tally(s, []));
    }
  }

  /** `Run` is successive `RunCycle`s: each poll starts from the set the
      previous one left and no alerts, as `check_events` does, and the run's
      alerts are the polls' alerts one after another. */
  lemma RunIsSuccessivePolls(polls: seq<Option<seq<Match>>>, t: Tally)
    requires polls != []
    ensures var before := Run(polls[..|polls| - 1], t);
            var poll := Poll(polls[|polls| - 1], Tally(before.notified, []));
            Run(polls, t) == Tally(poll.notified, before.alerts + poll.alerts)
  {
    var before := Run(polls[..|polls| - 1], t);
    PollIgnoresSent(polls[|polls| - 1], before.notified, before.alerts);
  }

  // ============================================================== scenario

  /** A live match, "Team A" at home against "Team B", whose only event is a
      foul at minute 43 recorded with the addition "Foul". */
  function FoulAt43(): Match
  {
    Match(Some(Num(1)), Some(Text("LIVE")),
          [Team(Some(Text("Team A")), Some(Text("home"))), Team(Some(Text("Team B")), Some(Text("away")))],
          [Event(Some(Num(43)), None, Some(Text("Foul")), Some(Text("Foul")), None, None, None)])
  }

  /** A cycle over one live match is its events processed in order. */
  lemma CycleOfOneMatch(m: Match, t: Tally)
    requires !IsFinished(m)
    ensures OneCycle([m], t) == OverEvents(FixtureOf(EntryOf(m)), m.events, t)
  {
    assert [m][..0] == [];
    assert Collected([m]) == Assign([], EntryOf(m));
    assert !HasId([], EntryOf(m).id);
    assert Collected([m]) == [EntryOf(m)];
    assert [EntryOf(m)][..0] == [];
    assert OverMatches([EntryOf(m)], t) == OverEvents(FixtureOf(EntryOf(m)), EntryOf(m).events, t);
  }

  /** An event under the vocabulary rule whose key is new raises its alert. */
  lemma StepExact(fx: Fixture, ev: Event, t: Tally)
    requires Classify(ev).Exact? && KeyOf(fx.id, ev) !in t.notified
    ensures Step(fx, ev, t) == Tally(t.notified + {KeyOf(fx.id, ev)}, t.alerts +
      [Alert(ExactAddition, fx.home, fx.away, Keys.FormatTime(ev), Canned(Classify(ev).notice), None, KeyOf(fx.id, ev))])
  {
  }

  lemma FoulAt43Fixture()
    ensures FixtureOf(EntryOf(FoulAt43())) == Fixture("1", "Team A", "Team B")
  {
    var e := EntryOf(FoulAt43());
    assert e.id == "1" by {
      assert Strings.Digits(1) == "1";
    }
    assert PlaysAt(e.participants[0], "home");
    assert PlaysAt(e.participants[1], "away") && !PlaysAt(e.participants[0], "away");
  }

  lemma FoulAt43Key(ev: Event)
    requires ev.minute == Some(Num(43)) && ev.extra == None && ev.addition == Some(Text("Foul"))
    ensures Classify(ev) == Exact(FoulInBox)
    ensures Keys.FormatTime(ev) == "43'"
    ensures KeyOf("1", ev) == "1_foul_43'"
  {
    assert Classify(ev) == Exact(FoulInBox) by {
      FoulAdditionNeverInBox(ev);
    }
    assert Keys.FormatTime(ev) == "43'" by {
      Keys.FormatTimeExamples(ev);
    }
    assert Addition(ev) == "Foul" by {
      Strings.StripKeepsTrimmed("Foul");
    }
    FoulAt43KeyText("1", Addition(ev), Keys.FormatTime(ev));
  }

  /** The key text of the scenario. The arguments are pinned to constants by
      the precondition rather than written as literals in the body, which
      keeps the solver from unfolding `Lower` on literal strings without
      bound. */
  lemma FoulAt43KeyText(fixture: string, addition: string, time: string)
    requires fixture == "1" && addition == "Foul" && time == "43'"
    ensures Keys.EventKey(fixture, addition, time) == "1_foul_43'"
  {
    assert fixture + "_" + addition + "_" + time == "1_Foul_43'";
    Strings.LowerLiteral("1_Foul_43'", "1_foul_43'");
  }

  /** From an empty set, a live match whose one event falls under the
      vocabulary rule raises that event's alert and records its key. */
  lemma OneExactEvent(m: Match, fx: Fixture, ev: Event, n: Notice, time: string, key: string)
    requires !IsFinished(m) && m.events == [ev] && FixtureOf(EntryOf(m)) == fx
    requires Classify(ev) == Exact(n) && Keys.FormatTime(ev) == time && KeyOf(fx.id, ev) == key
    ensures OneCycle([m], Tally({}, [])) == Tally({key}, [Alert(ExactAddition, fx.home, fx.away, time, Canned(n), None, key)])
  {
    var t0 := Tally({}, []);
    var a := Alert(ExactAddition, fx.home, fx.away, time, Canned(n), None, key);
    assert Step(fx, ev, t0) == Tally({key}, [a]) by {
      StepExact(fx, ev, t0);
      assert t0.notified + {key} == {key};
      assert t0.alerts + [a] == [a];
    }
    assert OverEvents(fx, [ev], t0) == Step(fx, ev, t0) by {
      assert [ev][..0] == [];
    }
    CycleOfOneMatch(m, t0);
  }

  /** From an empty dedup set that match raises exactly one alert, under the
      vocabulary rule, naming both teams and minute "43'", and its key
      "1_foul_43'" is the one key recorded. */
  lemma FoulAt43RaisesOneAlert(m: Match)
    requires m == FoulAt43()
    ensures OneCycle([m], Tally({}, []))
      == Tally({"1_foul_43'"}, [Alert(ExactAddition, "Team A", "Team B", "43'", Canned(FoulInBox), None, "1_foul_43'")])
  {
    var ev := m.events[0];
    var fx := Fixture("1", "Team A", "Team B");
    assert !IsFinished(m) && m.events == [ev];
    assert FixtureOf(EntryOf(m)) == fx by {
      FoulAt43Fixture();
    }
    assert Classify(ev) == Exact(FoulInBox) && Keys.FormatTime(ev) == "43'" && KeyOf(fx.id, ev) == "1_foul_43'" by {
      FoulAt43Key(ev);
    }
    OneExactEvent(m, fx, ev, FoulInBox, "43'", "1_foul_43'");
  }
}
