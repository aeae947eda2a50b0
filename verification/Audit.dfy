/** The hash-chained audit log and its JSONL store (audit/log.py, audit/store.py). */
module Audit {
  import opened Collections
  import opened Json

  /** What a hash covers. The payload is the text form, as in `Canon`. */
  datatype Body = Body(sequence: int, kind: string, time: int, payload: Value, prevSha: string)

  datatype Event = Event(body: Body, sha: string)

  /** sha256 of the canonical text. */
  type Hash = Body -> string

  datatype Line = Blank | Record(event: Event)

  datatype AuditError = EmptyKind | UnsortableKeys

  datatype ChainError = SequenceGap(at: nat) | PrevMismatch(at: nat) | ShaMismatch(at: nat)

  /** Assumed of the hash where a theorem needs it: no two bodies collide, and no hash is the
      empty string that stands for "no predecessor". */
  ghost predicate CollisionFree(h: Hash) {
    && (forall b :: h(b) != "")
    && (forall b, c :: h(b) == h(c) ==> b == c)
  }

  function Digest(h: Hash, b: Body): string {
    h(b.(payload := Canon(b.payload)))
  }

  /** The event as a line of the file gives it back. */
  function OnDisk(e: Event): Event {
    e.(body := e.body.(payload := Canon(e.body.payload)))
  }

  function Events(lines: seq<Line>): seq<Event> {
    if lines == [] then []
    else
      var last := lines[|lines| - 1];
      Events(lines[..|lines| - 1]) + (if last.Blank? then [] else [last.event])
  }

  function Head(events: seq<Event>): string {
    if events == [] then "" else events[|events| - 1].sha
  }

  function NextSequence(events: seq<Event>): int {
    if events == [] then 0 else events[|events| - 1].body.sequence + 1
  }

  // ------------------------------------------------------------- verification

  predicate Linked(h: Hash, e: Event, i: nat, prev: string) {
    e.body.sequence == i && e.body.prevSha == prev && e.sha == Digest(h, e.body)
  }

  /** Every event carries its position, its predecessor's hash and its own hash. */
  predicate ChainOk(h: Hash, events: seq<Event>) {
    forall i :: 0 <= i < |events| ==> Linked(h, events[i], i, Head(events[..i]))
  }

  lemma ChainNext(h: Hash, events: seq<Event>, i: nat)
    requires i < |events| && ChainOk(h, events[..i])
    ensures ChainOk(h, events[..i + 1]) <==> Linked(h, events[i], i, Head(events[..i]))
  {
    hide Linked;
    var front, more := events[..i], events[..i + 1];
    assert more[..i] == front && more[i] == events[i];
    forall k | 0 <= k < i ensures Linked(h, more[k], k, Head(more[..k])) {
      assert front[..k] == more[..k] && Linked(h, front[k], k, Head(front[..k]));
    }
  }

  /** A verified log stays verified when its tail is cut off: truncation is the one edit that
      verification cannot see. */
  lemma TruncationVerifies(h: Hash, events: seq<Event>, n: nat)
    requires ChainOk(h, events) && n <= |events|
    ensures ChainOk(h, events[..n])
  {
    forall i | 0 <= i < n ensures Linked(h, events[..n][i], i, Head(events[..n][..i])) {
      assert events[..n][..i] == events[..i];
    }
  }

  /** The loop of `verify_chain`: it accepts exactly the verified logs, and a rejection names the
      first event that does not fit behind a verified prefix and the first thing wrong with it. */
  method VerifyChain(h: Hash, events: seq<Event>) returns (r: Result<(), ChainError>)
    ensures r.Success? <==> ChainOk(h, events)
    ensures r.Failure? ==>
      var at := r.error.at;
      && at < |events| && ChainOk(h, events[..at])
      && var e := events[at].body;
      match r.error
      case SequenceGap(_) => e.sequence != at
      case PrevMismatch(_) => e.sequence == at && e.prevSha != Head(events[..at])
      case ShaMismatch(_) => e.sequence == at && e.prevSha == Head(events[..at]) && events[at].sha != Digest(h, e)
  {
    hide ChainOk;
    var expectedPrev := "";
    EmptyChain(h, events);
    for i := 0 to |events|
      invariant ChainOk(h, events[..i]) && expectedPrev == Head(events[..i])
    {
      var e := events[i];
      ChainNext(h, events, i);
      if !Linked(h, e, i, expectedPrev) {
        if ChainOk(h, events) {
          TruncationVerifies(h, events, i + 1);
        }
      }
      if e.body.sequence != i {
        return Failure(SequenceGap(i));
      }
      if e.body.prevSha != expectedPrev {
        return Failure(PrevMismatch(i));
      }
      if Digest(h, e.body) != e.sha {
        return Failure(ShaMismatch(i));
      }
      assert events[..i + 1][i] == e;
      expectedPrev := e.sha;
    }
    assert events[..|events|] == events;
    return Success(());
  }

  lemma EmptyChain(h: Hash, events: seq<Event>)
    ensures ChainOk(h, events[..0])
  {
  }

  // ------------------------------------------------------------- store and log

  class FileAuditStore {
    var file: seq<Line>
    var count: int
    var lastSha: string

    /** What the constructor recovers from the file is kept by every append. */
    ghost predicate Valid()
      reads this
    {
      count == NextSequence(Events(file)) && lastSha == Head(Events(file))
    }

    constructor (file: seq<Line>)
      ensures Valid() && this.file == file
    {
      var n, sha := 0, "";
      for i := 0 to |file|
        invariant n == NextSequence(Events(file[..i])) && sha == Head(Events(file[..i]))
      {
        assert file[..i + 1][..i] == file[..i];
        if file[i].Record? {
          n, sha := file[i].event.body.sequence + 1, file[i].event.sha;
        }
      }
      assert file[..|file|] == file;
      this.file, count, lastSha := file, n, sha;
    }

    method Append(e: Event)
      requires Valid()
      modifies this
      ensures Valid() && file == old(file) + [Record(OnDisk(e))]
    {
      file := file + [Record(OnDisk(e))];
      assert file[..|file| - 1] == old(file);
      count, lastSha := e.body.sequence + 1, e.sha;
    }

    method IterEvents() returns (events: seq<Event>)
      ensures events == Events(file)
    {
      events := [];
      for i := 0 to |file|
        invariant events == Events(file[..i])
      {
        assert file[..i + 1][..i] == file[..i];
        if file[i].Record? {
          events := events + [file[i].event];
        }
      }
      assert file[..|file|] == file;
    }
  }

  /** The log's own counters next to the store's file. */
  datatype Log = Log(file: seq<Line>, sequence: int, lastSha: string)

  function OpenLog(file: seq<Line>): Log {
    Log(file, NextSequence(Events(file)), Head(Events(file)))
  }

  function Rejects(kind: string, payload: Value): Option<AuditError> {
    if kind == "" then Some(EmptyKind)
    else if !Sortable(payload) then Some(UnsortableKeys)
    else None
  }

  function Sealed(h: Hash, l: Log, kind: string, payload: Value, time: int): Event {
    var b := Body(l.sequence, kind, time, payload, l.lastSha);
    Event(b, Digest(h, b))
  }

  /** A refused append raises before anything is stored. */
  function AppendTo(h: Hash, l: Log, kind: string, payload: Value, time: int): Log {
    if Rejects(kind, payload).Some? then l
    else
      var e := Sealed(h, l, kind, payload, time);
      Log(l.file + [Record(OnDisk(e))], l.sequence + 1, e.sha)
  }

  class AuditLog {
    const hash: Hash
    const store: FileAuditStore
    var sequence: int
    var lastSha: string

    ghost predicate Valid()
      reads this, store
    {
      store.Valid() && Value() == OpenLog(store.file)
    }

    function Value(): Log
      reads this, store
    {
      Log(store.file, sequence, lastSha)
    }

    constructor (hash: Hash, store: FileAuditStore)
      requires store.Valid()
      ensures Valid() && this.hash == hash && this.store == store
    {
      this.hash, this.store := hash, store;
      sequence, lastSha := store.count, store.lastSha;
    }

    method Append(kind: string, payload: Value, time: int) returns (r: Result<Event, AuditError>)
      requires Valid()
      modifies this, store
      ensures Valid() && Value() == AppendTo(hash, old(Value()), kind, payload, time)
      ensures r == if kind == "" then Failure(EmptyKind)
                   else if !Sortable(payload) then Failure(UnsortableKeys)
                   else Success(Sealed(hash, old(Value()), kind, payload, time))
    {
      hide Canon, Sortable, Digest, Events, Head, NextSequence;
      if kind == "" {
        return Failure(EmptyKind);
      }
      if !Sortable(payload) {
        return Failure(UnsortableKeys);
      }
      var b := Body(sequence, kind, time, payload, lastSha);
      var event := Event(b, Digest(hash, b));
      OpenNext(store.file, OnDisk(event));
      store.Append(event);
      lastSha := event.sha;
      sequence := sequence + 1;
      return Success(event);
    }

    method Verify() returns (r: Result<(), ChainError>)
      ensures r.Success? <==> ChainOk(hash, Events(store.file))
    {
      var events := store.IterEvents();
      r := VerifyChain(hash, events);
    }
  }

  lemma EventsNext(file: seq<Line>, e: Event)
    ensures Events(file + [Record(e)]) == Events(file) + [e]
  {
    assert (file + [Record(e)])[..|file|] == file;
  }

  lemma OpenNext(file: seq<Line>, e: Event)
    ensures OpenLog(file + [Record(e)]) == Log(file + [Record(e)], e.body.sequence + 1, e.sha)
  {
    EventsNext(file, e);
  }

  // ------------------------------------------------------------- every life of a log

  /** One writer: appends, and reopenings of the same file by a new process. */
  datatype Action = Append(kind: string, payload: Value, time: int) | Reopen

  function RunLog(h: Hash, actions: seq<Action>): Log {
    if actions == [] then OpenLog([])
    else
      var l := RunLog(h, actions[..|actions| - 1]);
      match actions[|actions| - 1]
      case Append(kind, payload, time) => AppendTo(h, l, kind, payload, time)
      case Reopen => OpenLog(l.file)
  }

  /** The accepted appends, in order. */
  function Accepted(actions: seq<Action>): seq<Action> {
    if actions == [] then []
    else
      var last := actions[|actions| - 1];
      Accepted(actions[..|actions| - 1])
      + (if last.Append? && Rejects(last.kind, last.payload).None? then [last] else [])
  }

  /** The file holds exactly the accepted appends, numbered and chained, payloads as text. */
  ghost predicate Written(h: Hash, events: seq<Event>, appends: seq<Action>) {
    && |events| == |appends|
    && forall i :: 0 <= i < |events| ==> appends[i].Append? && WrittenAt(h, events[i], appends[i], i, Head(events[..i]))
  }

  predicate WrittenAt(h: Hash, e: Event, a: Action, i: nat, prev: string)
    requires a.Append?
  {
    e.body == Body(i, a.kind, a.time, Canon(a.payload), prev) && e.sha == h(e.body)
  }

  lemma WrittenNext(h: Hash, events: seq<Event>, appends: seq<Action>, e: Event, a: Action)
    requires Written(h, events, appends) && a.Append? && WrittenAt(h, e, a, |events|, Head(events))
    ensures Written(h, events + [e], appends + [a])
  {
    hide WrittenAt;
    var more := events + [e];
    forall i | 0 <= i < |more| ensures WrittenAt(h, more[i], (appends + [a])[i], i, Head(more[..i])) {
      assert more[..i] == if i < |events| then events[..i] else events;
    }
  }

  lemma {:induction false} LogIsWritten(h: Hash, actions: seq<Action>)
    ensures var l := RunLog(h, actions); var events := Events(l.file);
      && Written(h, events, Accepted(actions))
      && l == OpenLog(l.file) && l.sequence == |events|
  {
    if actions != [] {
      hide Canon, Rejects, Written, WrittenAt;
      var before := actions[..|actions| - 1];
      LogIsWritten(h, before);
      var l := RunLog(h, before);
      var a := actions[|actions| - 1];
      if a.Append? && Rejects(a.kind, a.payload).None? {
        var e := OnDisk(Sealed(h, l, a.kind, a.payload, a.time));
        EventsNext(l.file, e);
        WrittenNext(h, Events(l.file), Accepted(before), e, a);
      } else {
        assert Accepted(actions) == Accepted(before) + [] == Accepted(before);
      }
    }
  }

  /** Reopening is invisible: a log that was reopened at any moments continues as if it had not
      been. */
  lemma {:induction false} ReopeningIsInvisible(h: Hash, actions: seq<Action>)
    ensures RunLog(h, actions) == RunLog(h, Accepted(actions))
  {
    if actions != [] {
      var before := actions[..|actions| - 1];
      var a := actions[|actions| - 1];
      ReopeningIsInvisible(h, before);
      LogIsWritten(h, before);
      if a.Append? && Rejects(a.kind, a.payload).None? {
        assert Accepted(actions)[..|Accepted(actions)| - 1] == Accepted(before);
      } else {
        assert Accepted(actions) == Accepted(before) + [] == Accepted(before);
      }
    }
  }

  /** An untouched log, with any number of reopenings, verifies if and only if each of its payloads
      reads back to the text that was hashed. */
  lemma IntactLogVerifiesIff(h: Hash, actions: seq<Action>)
    requires CollisionFree(h)
    ensures ChainOk(h, Events(RunLog(h, actions).file))
      <==> forall a :: a in Accepted(actions) && a.Append? ==> InNameOrder(Canon(a.payload))
  {
    hide *;
    LogIsWritten(h, actions);
    var events, appends := Events(RunLog(h, actions).file), Accepted(actions);
    AcceptedAreAppends(actions);
    WrittenLength(h, events, appends);
    forall i | 0 <= i < |events|
      ensures Linked(h, events[i], i, Head(events[..i])) <==> InNameOrder(Canon(appends[i].payload))
    {
      LinkedIff(h, events, appends, i);
    }
    ChainIsLinks(h, events);
    forall a | a in appends ensures exists i :: 0 <= i < |appends| && appends[i] == a {
    }
  }

  /** One such payload, legal by its annotation, and the untouched log does not verify. */
  lemma NestedIntegerLogFails(h: Hash)
    requires CollisionFree(h)
    ensures !ChainOk(h, Events(RunLog(h, [Append("note", Nested(), 0)]).file))
  {
    hide ChainOk, Events, RunLog, CollisionFree, Canon, InNameOrder, Nested, Sortable;
    var actions := [Append("note", Nested(), 0)];
    NestedIntegerKeysReadBackReordered();
    IntactLogVerifiesIff(h, actions);
    OneAppendAccepted("note", Nested());
    assert Accepted(actions)[0] in Accepted(actions);
  }

  lemma OneAppendAccepted(kind: string, payload: Value)
    requires kind != "" && Sortable(payload)
    ensures Accepted([Append(kind, payload, 0)]) == [Append(kind, payload, 0)]
  {
    hide Sortable;
    var a := Append(kind, payload, 0);
    assert [a][..0] == [];
    assert Accepted([]) == [];
  }

  lemma WrittenLength(h: Hash, events: seq<Event>, appends: seq<Action>)
    requires Written(h, events, appends)
    ensures |events| == |appends| && forall i :: 0 <= i < |appends| ==> appends[i].Append?
  {
  }

  lemma ChainIsLinks(h: Hash, events: seq<Event>)
    ensures ChainOk(h, events) <==> forall i :: 0 <= i < |events| ==> Linked(h, events[i], i, Head(events[..i]))
  {
    hide Linked;
  }

  lemma LinkedIff(h: Hash, events: seq<Event>, appends: seq<Action>, i: nat)
    requires CollisionFree(h) && Written(h, events, appends) && i < |events| && appends[i].Append?
    ensures Linked(h, events[i], i, Head(events[..i])) <==> InNameOrder(Canon(appends[i].payload))
  {
    hide Canon, InNameOrder;
    assert WrittenAt(h, events[i], appends[i], i, Head(events[..i]));
    StableIff(appends[i].payload);
  }

  /** In particular every log of string-keyed payloads verifies, whatever the hash. */
  lemma StringKeyedLogVerifies(h: Hash, actions: seq<Action>)
    requires forall i :: 0 <= i < |actions| && actions[i].Append? ==> StringKeyed(actions[i].payload)
    ensures ChainOk(h, Events(RunLog(h, actions).file))
  {
    hide Canon;
    LogIsWritten(h, actions);
    AcceptedAreAppends(actions);
    var events, appends := Events(RunLog(h, actions).file), Accepted(actions);
    forall i | 0 <= i < |events| ensures Linked(h, events[i], i, Head(events[..i])) {
      assert WrittenAt(h, events[i], appends[i], i, Head(events[..i]));
      assert appends[i] in appends;
      StringKeysAreStable(appends[i].payload);
      StableIff(appends[i].payload);
    }
  }

  lemma {:induction false} AcceptedAreAppends(actions: seq<Action>)
    ensures forall a :: a in Accepted(actions) ==> a.Append? && a in actions
  {
    if actions != [] {
      AcceptedAreAppends(actions[..|actions| - 1]);
    }
  }

  // ------------------------------------------------------------- tampering

  /** Two logs with the same events, payload text for payload text. */
  ghost predicate SameText(xs: seq<Event>, ys: seq<Event>) {
    |xs| == |ys| && forall i :: 0 <= i < |xs| ==> OnDisk(xs[i]) == OnDisk(ys[i])
  }

  /** Under a collision-free hash the head hash determines the whole log: two verified logs with
      the same head hold the same events. Any edit, deletion, insertion or reordering behind an
      unchanged head is therefore caught. */
  lemma {:induction false} HeadDeterminesLog(h: Hash, xs: seq<Event>, ys: seq<Event>)
    requires CollisionFree(h) && ChainOk(h, xs) && ChainOk(h, ys) && Head(xs) == Head(ys)
    ensures SameText(xs, ys)
    decreases |xs|
  {
    hide Canon, CollisionFree, ChainOk, SameText;
    HashNeverEmpty(h, xs);
    HashNeverEmpty(h, ys);
    if xs == [] {
      SameTextOfNone(xs, ys);
    } else {
      var m, n := |xs| - 1, |ys| - 1;
      LastEventsMatch(h, xs, ys);
      TruncationVerifies(h, xs, m);
      TruncationVerifies(h, ys, n);
      HeadDeterminesLog(h, xs[..m], ys[..n]);
      SameTextNext(xs, ys);
    }
  }

  lemma LastEventsMatch(h: Hash, xs: seq<Event>, ys: seq<Event>)
    requires CollisionFree(h) && ChainOk(h, xs) && ChainOk(h, ys) && xs != [] && ys != [] && Head(xs) == Head(ys)
    ensures |xs| == |ys| && OnDisk(xs[|xs| - 1]) == OnDisk(ys[|ys| - 1])
    ensures Head(xs[..|xs| - 1]) == Head(ys[..|ys| - 1])
  {
    hide Canon, CollisionFree;
    var m, n := |xs| - 1, |ys| - 1;
    assert Linked(h, xs[m], m, Head(xs[..m])) && Linked(h, ys[n], n, Head(ys[..n]));
    NoCollision(h, OnDisk(xs[m]).body, OnDisk(ys[n]).body);
  }

  lemma SameTextOfNone(xs: seq<Event>, ys: seq<Event>)
    requires xs == [] && ys == []
    ensures SameText(xs, ys)
  {
  }

  lemma SameTextNext(xs: seq<Event>, ys: seq<Event>)
    requires xs != [] && |xs| == |ys| && OnDisk(xs[|xs| - 1]) == OnDisk(ys[|ys| - 1])
    requires SameText(xs[..|xs| - 1], ys[..|ys| - 1])
    ensures SameText(xs, ys)
  {
    hide OnDisk;
    var m := |xs| - 1;
    forall i | 0 <= i < m ensures OnDisk(xs[i]) == OnDisk(ys[i]) {
      assert xs[i] == xs[..m][i] && ys[i] == ys[..m][i];
    }
  }

  lemma NoCollision(h: Hash, b: Body, c: Body)
    requires CollisionFree(h) && h(b) == h(c)
    ensures b == c
  {
  }

  lemma HashNeverEmpty(h: Hash, events: seq<Event>)
    requires CollisionFree(h) && ChainOk(h, events)
    ensures Head(events) == "" <==> events == []
  {
    hide Canon;
    if events != [] {
      var n := |events| - 1;
      assert Linked(h, events[n], n, Head(events[..n]));
    }
  }

  /** A log that differs anywhere behind an unchanged head does not verify. */
  lemma TamperingIsCaught(h: Hash, log: seq<Event>, forged: seq<Event>)
    requires CollisionFree(h) && ChainOk(h, log) && Head(forged) == Head(log)
    requires !SameText(log, forged)
    ensures !ChainOk(h, forged)
  {
    if ChainOk(h, forged) {
      HeadDeterminesLog(h, log, forged);
    }
  }
}
