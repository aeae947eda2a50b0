/** The paper journal: every event goes to the audit chain and, as one line, to the decisions log
    (paper/journal.py). */
module Journal {
  import opened Collections
  import opened Json
  import opened Audit

  /** One call of `record`: the payload is a dict, listed by its entries. */
  datatype Call = Call(kind: string, payload: seq<Entry>, stamp: string, time: int)

  predicate HasKey(payload: seq<Entry>, key: Key) {
    exists i :: 0 <= i < |payload| && payload[i].key == key
  }

  function NotIn(payload: seq<Entry>): Entry -> bool {
    (e: Entry) => !HasKey(payload, e.key)
  }

  function Stamped(c: Call): seq<Entry> {
    [Entry(Name("timestamp"), Leaf(c.stamp)), Entry(Name("kind"), Leaf(c.kind))]
  }

  /** `{"timestamp": ..., "kind": ..., **payload}`: a payload key of the same name takes the place. */
  function Spread(c: Call): seq<Entry> {
    Filter(Stamped(c), NotIn(c.payload)) + c.payload
  }

  /** The line of the decisions log, as text. */
  function LineOf(c: Call): Value {
    Canon(Dict(Spread(c)))
  }

  predicate AllNames(payload: seq<Entry>) {
    forall i :: 0 <= i < |payload| ==> payload[i].key.Name?
  }

  function Refused(c: Call): bool {
    Rejects(c.kind, Dict(c.payload)).Some?
  }

  // ------------------------------------------------------------- when the line can be written

  lemma NamesNotNumbers(payload: seq<Entry>, text: string)
    requires Sortable(Dict(payload)) && !AllNames(payload)
    ensures !HasKey(payload, Name(text))
  {
  }

  /** Beside the two names a dict of integer keys cannot be sorted. */
  lemma LineSortableIff(c: Call)
    requires Sortable(Dict(c.payload))
    ensures Sortable(Dict(Spread(c))) <==> AllNames(c.payload)
  {
    var stamped := Stamped(c);
    var kept := Filter(stamped, NotIn(c.payload));
    var line := Spread(c);
    if AllNames(c.payload) {
      forall i | 0 <= i < |line| ensures line[i].key.Name? && Sortable(line[i].value) {
        if i < |kept| {
          assert kept[i] in stamped;
        } else {
          assert line[i] == c.payload[i - |kept|];
        }
      }
    } else {
      NamesNotNumbers(c.payload, "timestamp");
      NamesNotNumbers(c.payload, "kind");
      FilterAll(stamped, NotIn(c.payload));
      var k :| 0 <= k < |c.payload| && !c.payload[k].key.Name?;
      assert line[0] == stamped[0] && line[2 + k] == c.payload[k];
    }
  }

  // ------------------------------------------------------------- what the line says

  lemma CanonHolds(entries: seq<Entry>, name: string, text: Value)
    ensures AllNames(entries) ==>
      (Entry(Name(name), text) in Canon(Dict(entries)).entries
       <==> exists i :: 0 <= i < |entries| && entries[i].key == Name(name) && Canon(entries[i].value) == text)
  {
    if AllNames(entries) {
      CanonValuesAt(entries);
      var inner := CanonValues(entries);
      SortedNames(inner);
      SortByContents(inner, EntryLeq);
      assert Canon(Dict(entries)).entries == SortBy(inner, EntryLeq);
      var wanted := Entry(Name(name), text);
      if wanted in inner {
        var i :| 0 <= i < |inner| && inner[i] == wanted;
        assert entries[i].key == Name(name) && Canon(entries[i].value) == text;
      }
      if i :| 0 <= i < |entries| && entries[i].key == Name(name) && Canon(entries[i].value) == text {
        assert inner[i] == wanted;
      }
    }
  }

  lemma StampedIsNamed(c: Call)
    requires AllNames(c.payload)
    ensures AllNames(Spread(c))
  {
    var kept := Filter(Stamped(c), NotIn(c.payload));
    forall i | 0 <= i < |Spread(c)| ensures Spread(c)[i].key.Name? {
      if i < |kept| {
        assert kept[i] in Stamped(c);
      }
    }
  }

  /** A stamp of the line that the payload does not override, or overrides with the same. */
  lemma StampIsInLineIff(c: Call, k: nat)
    requires AllNames(c.payload) && k < 2
    ensures var own := Stamped(c)[k];
      Entry(own.key, Canon(own.value)) in LineOf(c).entries
      <==> (forall i :: 0 <= i < |c.payload| ==> c.payload[i].key != own.key)
           || exists i :: 0 <= i < |c.payload| && c.payload[i].key == own.key && Canon(c.payload[i].value) == Canon(own.value)
  {
    var line, kept, own := Spread(c), Filter(Stamped(c), NotIn(c.payload)), Stamped(c)[k];
    StampedIsNamed(c);
    CanonHolds(line, own.key.text, Canon(own.value));
    if !HasKey(c.payload, own.key) {
      FilterKeeps(Stamped(c), NotIn(c.payload), own);
      var i :| 0 <= i < |kept| && kept[i] == own;
      assert line[i] == own;
    } else {
      forall i | 0 <= i < |kept| ensures kept[i].key != own.key {
        assert kept[i] in kept && NotIn(c.payload)(kept[i]);
      }
      forall i | 0 <= i < |c.payload| ensures line[|kept| + i] == c.payload[i] {
      }
    }
  }

  /** The line names the call's kind exactly when the payload has no `kind` of its own, or has the
      same one. */
  lemma LineNamesKindIff(c: Call)
    requires AllNames(c.payload)
    ensures Entry(Name("kind"), Leaf(c.kind)) in LineOf(c).entries
      <==> (forall i :: 0 <= i < |c.payload| ==> c.payload[i].key != Name("kind"))
           || exists i :: 0 <= i < |c.payload| && c.payload[i].key == Name("kind") && Canon(c.payload[i].value) == Leaf(c.kind)
  {
    assert Stamped(c)[1] == Entry(Name("kind"), Leaf(c.kind)) && Canon(Leaf(c.kind)) == Leaf(c.kind);
    StampIsInLineIff(c, 1);
  }

  /** The same of its time stamp; and everything in the payload is in the line. */
  lemma LineHolds(c: Call, k: nat)
    requires AllNames(c.payload)
    ensures Entry(Name("timestamp"), Leaf(c.stamp)) in LineOf(c).entries
      <==> (forall i :: 0 <= i < |c.payload| ==> c.payload[i].key != Name("timestamp"))
           || exists i :: 0 <= i < |c.payload| && c.payload[i].key == Name("timestamp") && Canon(c.payload[i].value) == Leaf(c.stamp)
    ensures k < |c.payload| ==> Entry(c.payload[k].key, Canon(c.payload[k].value)) in LineOf(c).entries
  {
    assert Stamped(c)[0] == Entry(Name("timestamp"), Leaf(c.stamp)) && Canon(Leaf(c.stamp)) == Leaf(c.stamp);
    StampIsInLineIff(c, 0);
    if k < |c.payload| {
      var line, kept := Spread(c), Filter(Stamped(c), NotIn(c.payload));
      StampedIsNamed(c);
      CanonHolds(line, c.payload[k].key.text, Canon(c.payload[k].value));
      assert line[|kept| + k] == c.payload[k];
    }
  }

  // ------------------------------------------------------------- both logs

  class PaperJournal {
    const audit: AuditLog
    var decisions: seq<Value>

    ghost predicate Valid()
      reads this, audit, audit.store
    {
      audit.Valid()
    }

    /** Opens (or reopens) the journal directory. */
    constructor (hash: Hash, auditFile: seq<Line>, decisions: seq<Value>)
      ensures Valid() && this.decisions == decisions && audit.store.file == auditFile && audit.hash == hash
    {
      var store := new FileAuditStore(auditFile);
      audit := new AuditLog(hash, store);
      this.decisions := decisions;
    }

    /** The chain is written first; a line that cannot be sorted raises after that. */
    method Record(c: Call) returns (r: Result<(), AuditError>)
      requires Valid()
      modifies this, audit, audit.store
      ensures Valid()
      ensures audit.Value() == AppendTo(audit.hash, old(audit.Value()), c.kind, Dict(c.payload), c.time)
      ensures r == if Refused(c) then Failure(Rejects(c.kind, Dict(c.payload)).value)
                   else if AllNames(c.payload) then Success(()) else Failure(UnsortableKeys)
      ensures decisions == if r.Success? then old(decisions) + [LineOf(c)] else old(decisions)
    {
      hide Canon, Sortable, Spread;
      var appended := audit.Append(c.kind, Dict(c.payload), c.time);
      if appended.Failure? {
        return Failure(appended.error);
      }
      AcceptedIsSortable(c);
      LineSortableIff(c);
      if !Sortable(Dict(Spread(c))) {
        return Failure(UnsortableKeys);
      }
      decisions := decisions + [LineOf(c)];
      return Success(());
    }
  }

  lemma AcceptedIsSortable(c: Call)
    requires Rejects(c.kind, Dict(c.payload)).None?
    ensures Sortable(Dict(c.payload))
  {
  }

  // ------------------------------------------------------------- written twice

  function DecisionsAfter(calls: seq<Call>): seq<Value> {
    if calls == [] then []
    else
      var c := calls[|calls| - 1];
      DecisionsAfter(calls[..|calls| - 1]) + (if !Refused(c) && AllNames(c.payload) then [LineOf(c)] else [])
  }

  function AppendOf(c: Call): Action {
    Append(c.kind, Dict(c.payload), c.time)
  }

  function ActionsOf(calls: seq<Call>): (actions: seq<Action>)
    ensures |actions| == |calls| && forall i :: 0 <= i < |calls| ==> actions[i] == AppendOf(calls[i])
  {
    seq(|calls|, i requires 0 <= i < |calls| => AppendOf(calls[i]))
  }

  lemma {:induction false} CountLines(calls: seq<Call>)
    ensures |DecisionsAfter(calls)| <= |Accepted(ActionsOf(calls))|
    ensures |DecisionsAfter(calls)| == |Accepted(ActionsOf(calls))|
      <==> forall c :: c in calls && !Refused(c) ==> AllNames(c.payload)
  {
    hide Rejects, AllNames, LineOf, ActionsOf, Accepted, Refused;
    if calls != [] {
      var n := |calls| - 1;
      var front, c := calls[..n], calls[n];
      CountLines(front);
      AcceptedNext(calls);
      assert calls == front + [c];
    } else {
      NothingAccepted();
    }
  }

  lemma AcceptedNext(calls: seq<Call>)
    requires calls != []
    ensures var n := |calls| - 1;
      |Accepted(ActionsOf(calls))| == |Accepted(ActionsOf(calls[..n]))| + (if Refused(calls[n]) then 0 else 1)
  {
    var n := |calls| - 1;
    assert ActionsOf(calls)[..n] == ActionsOf(calls[..n]);
  }

  lemma NothingAccepted()
    ensures Accepted(ActionsOf([])) == []
  {
  }

  /** Every event is written twice, over any calls, if and only if every accepted payload has string
      keys: one with integer keys reaches the audit chain and then raises before its line. */
  lemma WrittenTwiceIff(h: Hash, calls: seq<Call>)
    ensures |DecisionsAfter(calls)| == |Events(RunLog(h, ActionsOf(calls)).file)|
      <==> forall c :: c in calls && !Refused(c) ==> AllNames(c.payload)
  {
    hide *;
    CountLines(calls);
    LogIsWritten(h, ActionsOf(calls));
    WrittenLength(h, Events(RunLog(h, ActionsOf(calls)).file), Accepted(ActionsOf(calls)));
  }

  function Numbered(): Call {
    Call("note", [Entry(Number(1), Leaf("x"))], "t", 0)
  }

  lemma NumberedIsAccepted()
    ensures !Refused(Numbered()) && !AllNames(Numbered().payload)
  {
    var c := Numbered();
    assert c.payload[0] == Entry(Number(1), Leaf("x"));
    assert Sortable(Dict(c.payload)) && |c.kind| == 4;
  }

  /** One integer key is enough: the audit chain has the event, the decisions log does not. */
  lemma IntegerKeyLosesItsLine(h: Hash)
    ensures |Events(RunLog(h, ActionsOf([Numbered()])).file)| == 1 && DecisionsAfter([Numbered()]) == []
  {
    hide AllNames, Refused, RunLog, Events, Written, LineOf, ActionsOf, Accepted, Numbered;
    NumberedIsAccepted();
    var calls := [Numbered()];
    assert calls[..|calls| - 1] == [];
    assert DecisionsAfter([]) == [];
    OneAccepted(Numbered());
    LogIsWritten(h, ActionsOf(calls));
    WrittenLength(h, Events(RunLog(h, ActionsOf(calls)).file), Accepted(ActionsOf(calls)));
  }

  lemma OneAccepted(c: Call)
    requires !Refused(c)
    ensures |Accepted(ActionsOf([c]))| == 1
  {
    AcceptedNext([c]);
    NothingAccepted();
  }
}
