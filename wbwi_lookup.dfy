/** WriteBatchWithIndexInternal::GetFromBatch
    (utilities/write_batch_with_index/write_batch_with_index_internal.cc):
    the read-your-own-writes lookup of one key in an indexed write batch.
    The index of the column family is its entries in insertion order; the
    entries for the key are walked from the newest back. The comparator and
    the full merge are parameters. */
module WriteBatchLookup {
  import opened Wrappers
  import opened RocksStatus
  import opened WriteBatchEntry
  import Decimal

  /** One index entry (WriteEntry). */
  datatype WriteEntry = WriteEntry(key: Bytes, wtype: WriteType, value: Bytes)

  /** WriteBatchWithIndexInternal::Result. */
  datatype LookupResult = kFound | kDeleted | kMergeInProgress | kNotFound | kError

  /** The user comparator; two keys are the same key when it returns 0. */
  datatype Comparator = Comparator(compare: (Bytes, Bytes) -> int)

  /** A merge operator, known only by its identity. */
  datatype MergeOperator = MergeOperator(name: string)

  /** A column family handle, reduced to its merge operator (which may be unset). */
  datatype ColumnFamilyHandle = ColumnFamilyHandle(mergeOperator: Option<MergeOperator>)

  /** What MergeHelper::TimedFullMerge returns and writes through value. */
  datatype MergeOutcome = MergeOutcome(status: Status, value: Bytes)

  /** MergeHelper::TimedFullMerge: operator, key, existing value (None for
      no value) and operands, as pushed. */
  type FullMerge = (MergeOperator, Bytes, Option<Bytes>, seq<Bytes>) -> MergeOutcome

  predicate SameKey(c: Comparator, a: Bytes, b: Bytes) {
    c.compare(a, b) == 0
  }

  /** LogData and XID entries are skipped by the scan. */
  predicate Ignored(e: WriteEntry) {
    e.wtype == LogDataRecord || e.wtype == XIDRecord
  }

  function UnexpectedEntryError(t: WriteType): Status {
    Status(Corruption, Joined("Unexpected entry in WriteBatchWithIndex:", Decimal.Digits(t.Code())))
  }

  const NoColumnFamilyError: Status := Status(InvalidArgument, "Must provide a column_family")
  const NoMergeOperatorError: Status := Status(InvalidArgument, "Options::merge_operator must be set")

  // ---------------------------------------------------------------------
  // The backward scan

  /** result, entry_value, the merge context's operands and *s, as the scan
      leaves them. */
  datatype ScanState = ScanState(result: LookupResult, entryValue: Bytes, operands: seq<Bytes>, status: Status)

  /** The entries for key, newest first. */
  function NewestFirst(entries: seq<WriteEntry>, key: Bytes, c: Comparator): (r: seq<WriteEntry>)
    ensures |r| <= |entries|
    ensures forall j :: 0 <= j < |r| ==> SameKey(c, r[j].key, key) && r[j] in entries
    decreases |entries|
  {
    if entries == [] then []
    else
      var last := entries[|entries| - 1];
      var rest := NewestFirst(entries[..|entries| - 1], key, c);
      if SameKey(c, last.key, key) then [last] + rest else rest
  }

  /** The switch on entry.type; DeleteRange and unknown entries take its
      default branch. */
  function Step(st: ScanState, e: WriteEntry): (r: ScanState)
    ensures r.operands == (if e.wtype == MergeRecord then st.operands + [e.value] else st.operands)
    ensures r.entryValue == (if e.wtype == PutRecord then e.value else st.entryValue)
    ensures Ignored(e) ==> r == st
    ensures !Ignored(e) ==> (r.result == kError <==> e.wtype == DeleteRangeRecord || e.wtype == UnknownRecord)
    ensures r.status != st.status ==> r.status == UnexpectedEntryError(e.wtype)
  {
    if e.wtype == PutRecord then st.(result := kFound, entryValue := e.value)
    else if e.wtype == MergeRecord then st.(result := kMergeInProgress, operands := st.operands + [e.value])
    else if e.wtype == DeleteRecord || e.wtype == SingleDeleteRecord then st.(result := kDeleted)
    else if Ignored(e) then st
    else st.(result := kError, status := UnexpectedEntryError(e.wtype))
  }

  /** The two breaks after the switch. */
  predicate Stops(st: ScanState, overwriteKey: bool)
    ensures st.result == kNotFound ==> !Stops(st, overwriteKey)
    ensures st.result == kMergeInProgress ==> (Stops(st, overwriteKey) <==> overwriteKey)
    ensures !overwriteKey ==> (Stops(st, overwriteKey) <==> st.result != kNotFound && st.result != kMergeInProgress)
  {
    st.result == kFound || st.result == kDeleted || st.result == kError ||
    (st.result == kMergeInProgress && overwriteKey)
  }

  /** The state in which *s is not OK exactly when result is kError. */
  predicate Consistent(st: ScanState) {
    st.result == kError <==> !st.status.IsOk()
  }

  /** The scan over entries given newest first, until a break. */
  function Scan(es: seq<WriteEntry>, st: ScanState, overwriteKey: bool): (r: ScanState)
    ensures st.operands <= r.operands
    ensures r.result == kMergeInProgress ==> st.result == kMergeInProgress || |r.operands| > |st.operands|
    ensures Consistent(st) && st.result != kError ==> Consistent(r)
    decreases |es|
  {
    if es == [] then st
    else
      var next := Step(st, es[0]);
      if Stops(next, overwriteKey) then next
      else Scan(es[1..], next, overwriteKey)
  }

  /** LogData and XID entries leave a running scan where it was. */
  lemma {:induction false} ScanThroughIgnored(es: seq<WriteEntry>, st: ScanState, overwriteKey: bool)
    requires forall j :: 0 <= j < |es| ==> Ignored(es[j])
    requires !Stops(st, overwriteKey)
    ensures Scan(es, st, overwriteKey) == st
    decreases |es|
  {
    if es != [] {
      assert Step(st, es[0]) == st;
      ScanThroughIgnored(es[1..], st, overwriteKey);
    }
  }

  // ---------------------------------------------------------------------
  // The merge decision

  /** *s, result, *value and the merge context's operands when GetFromBatch returns. */
  datatype Lookup = Lookup(result: LookupResult, status: Status, value: Bytes, operands: seq<Bytes>)

  /** Lines 186 to 224: a Put or Delete with operands is merged (over base),
      a bare Put writes its value, anything else is returned as the scan
      left it. */
  function Resolve(st: ScanState, cf: Option<ColumnFamilyHandle>, key: Bytes, value: Bytes,
                   merge: FullMerge, base: Option<Bytes>): (r: Lookup)
    ensures r.operands == st.operands
    ensures Consistent(st) ==> (r.result == kError <==> !r.status.IsOk())
    ensures !st.status.IsOk() ==> r == Lookup(st.result, st.status, value, st.operands)
    ensures r.result == kDeleted || r.result == kNotFound || r.result == kMergeInProgress ==> r.value == value
    ensures r.result != st.result ==> st.operands != [] && (st.result == kFound || st.result == kDeleted)
  {
    if !st.status.IsOk() then Lookup(st.result, st.status, value, st.operands)
    else if (st.result == kFound || st.result == kDeleted) && |st.operands| > 0 then
      match cf
      case None => Lookup(kError, NoColumnFamilyError, value, st.operands)
      case Some(h) =>
        match h.mergeOperator
        case None => Lookup(kError, NoMergeOperatorError, value, st.operands)
        case Some(op) =>
          var m := merge(op, key, base, st.operands);
          Lookup(if m.status.IsOk() then kFound else kError, m.status, m.value, st.operands)
    else if st.result == kFound then Lookup(kFound, st.status, st.entryValue, st.operands)
    else Lookup(st.result, st.status, value, st.operands)
  }

  /** The existing value handed to the full merge: the Put's value, or no
      value under a Delete. */
  function MergeBase(st: ScanState): (r: Option<Bytes>)
    ensures r.Some? <==> st.result == kFound
    ensures st.result == kFound ==> r == MergeBaseAsWritten(st)
    ensures st.result != kFound ==> r != MergeBaseAsWritten(st)
  {
    if st.result == kFound then Some(st.entryValue) else None
  }

  /** As written, &entry_value is passed in both cases: under a Delete it is
      the empty entry_value the scan started with. */
  function MergeBaseAsWritten(st: ScanState): (r: Option<Bytes>)
    ensures r.Some? && r.value == st.entryValue
  {
    Some(st.entryValue)
  }

  function InitialScan(operands: seq<Bytes>): ScanState {
    ScanState(kNotFound, [], operands, OK)
  }

  /** GetFromBatch over the column family's entries in insertion order,
      starting from the merge context's operands and the caller's *value. */
  function BatchLookup(entries: seq<WriteEntry>, cf: Option<ColumnFamilyHandle>, key: Bytes, operands: seq<Bytes>,
                       cmp: Option<Comparator>, value: Bytes, overwriteKey: bool, merge: FullMerge): (r: Lookup)
    ensures cmp.None? ==> r == Lookup(kNotFound, OK, value, operands)
    ensures r.result == kError <==> !r.status.IsOk()
    ensures operands <= r.operands
    ensures r.result == kDeleted || r.result == kNotFound || r.result == kMergeInProgress ==> r.value == value
    ensures r.result == kMergeInProgress ==> |r.operands| > |operands|
  {
    match cmp
    case None => Lookup(kNotFound, OK, value, operands)
    case Some(c) =>
      var st := Scan(NewestFirst(entries, key, c), InitialScan(operands), overwriteKey);
      Resolve(st, cf, key, value, merge, MergeBase(st))
  }

  /** BatchLookup as written: the merge under a Delete sees an empty existing value. */
  function BatchLookupAsWritten(entries: seq<WriteEntry>, cf: Option<ColumnFamilyHandle>, key: Bytes, operands: seq<Bytes>,
                                cmp: Option<Comparator>, value: Bytes, overwriteKey: bool, merge: FullMerge): (r: Lookup)
    ensures cmp.None? ==> r == Lookup(kNotFound, OK, value, operands)
    ensures r.result == kError <==> !r.status.IsOk()
    ensures operands <= r.operands
  {
    match cmp
    case None => Lookup(kNotFound, OK, value, operands)
    case Some(c) =>
      var st := Scan(NewestFirst(entries, key, c), InitialScan(operands), overwriteKey);
      Resolve(st, cf, key, value, merge, MergeBaseAsWritten(st))
  }

  // ---------------------------------------------------------------------
  // Properties of the lookup

  /** Later entries come first. */
  lemma {:induction false} NewestFirstConcat(a: seq<WriteEntry>, b: seq<WriteEntry>, key: Bytes, c: Comparator)
    ensures NewestFirst(a + b, key, c) == NewestFirst(b, key, c) + NewestFirst(a, key, c)
    decreases |b|
  {
    if b == [] {
      assert a + b == a;
    } else {
      var init := b[..|b| - 1];
      assert (a + b)[..|a + b| - 1] == a + init;
      assert (a + b)[|a + b| - 1] == b[|b| - 1];
      NewestFirstConcat(a, init, key, c);
    }
  }

  /** A scan that gets through its first part without a break carries on
      into the second. */
  lemma {:induction false} ScanConcat(x: seq<WriteEntry>, y: seq<WriteEntry>, st: ScanState, overwriteKey: bool)
    requires !Stops(Scan(x, st, overwriteKey), overwriteKey)
    ensures Scan(x + y, st, overwriteKey) == Scan(y, Scan(x, st, overwriteKey), overwriteKey)
    decreases |x|
  {
    if x == [] {
      assert x + y == y;
    } else {
      assert (x + y)[0] == x[0] && (x + y)[1..] == x[1..] + y;
      var next := Step(st, x[0]);
      if !Stops(next, overwriteKey) {
        ScanConcat(x[1..], y, next, overwriteKey);
      }
    }
  }

  /** The entries for key in b are all LogData or XID entries. */
  predicate OnlyIgnoredFor(b: seq<WriteEntry>, key: Bytes, c: Comparator) {
    forall j :: 0 <= j < |b| && SameKey(c, b[j].key, key) ==> Ignored(b[j])
  }

  /** The entries for key around one of them, newest first. */
  lemma NewestFirstAround(a: seq<WriteEntry>, e: WriteEntry, b: seq<WriteEntry>, key: Bytes, c: Comparator)
    requires SameKey(c, e.key, key)
    ensures NewestFirst(a + [e] + b, key, c) == NewestFirst(b, key, c) + ([e] + NewestFirst(a, key, c))
  {
    NewestFirstConcat(a + [e], b, key, c);
    NewestFirstConcat(a, [e], key, c);
    assert [e][..0] == [];
    assert NewestFirst([e], key, c) == [e];
  }

  /** One step of the scan. */
  lemma ScanHead(e: WriteEntry, rest: seq<WriteEntry>, st: ScanState, overwriteKey: bool)
    ensures Scan([e] + rest, st, overwriteKey) ==
              if Stops(Step(st, e), overwriteKey) then Step(st, e) else Scan(rest, Step(st, e), overwriteKey)
  {
    assert ([e] + rest)[0] == e && ([e] + rest)[1..] == rest;
  }

  /** The newest entry for key that is not skipped decides the first step. */
  lemma NewestEntryDecides(a: seq<WriteEntry>, e: WriteEntry, b: seq<WriteEntry>, key: Bytes, c: Comparator,
                           st: ScanState, overwriteKey: bool)
    requires SameKey(c, e.key, key) && OnlyIgnoredFor(b, key, c) && !Stops(st, overwriteKey)
    ensures Scan(NewestFirst(a + [e] + b, key, c), st, overwriteKey) ==
              if Stops(Step(st, e), overwriteKey) then Step(st, e)
              else Scan(NewestFirst(a, key, c), Step(st, e), overwriteKey)
  {
    NewestFirstAround(a, e, b, key, c);
    var nb := NewestFirst(b, key, c);
    assert forall j :: 0 <= j < |nb| ==> Ignored(nb[j]);
    ScanThroughIgnored(nb, st, overwriteKey);
    ScanConcat(nb, [e] + NewestFirst(a, key, c), st, overwriteKey);
    ScanHead(e, NewestFirst(a, key, c), st, overwriteKey);
  }

  /** Entries for other keys never influence the lookup. */
  lemma OtherKeysIrrelevant(a: seq<WriteEntry>, e: WriteEntry, b: seq<WriteEntry>, cf: Option<ColumnFamilyHandle>,
                            key: Bytes, operands: seq<Bytes>, c: Comparator, value: Bytes, overwriteKey: bool,
                            merge: FullMerge)
    requires !SameKey(c, e.key, key)
    ensures BatchLookup(a + [e] + b, cf, key, operands, Some(c), value, overwriteKey, merge) ==
            BatchLookup(a + b, cf, key, operands, Some(c), value, overwriteKey, merge)
  {
    NewestFirstConcat(a + [e], b, key, c);
    NewestFirstConcat(a, [e], key, c);
    NewestFirstConcat(a, b, key, c);
    assert [e][..0] == [];
    assert NewestFirst([e], key, c) == [];
  }

  /** The newest Put wins: kFound with the Put's value, when the merge
      context was empty. */
  lemma NewestPutWins(a: seq<WriteEntry>, put: WriteEntry, b: seq<WriteEntry>, cf: Option<ColumnFamilyHandle>,
                      key: Bytes, c: Comparator, value: Bytes, overwriteKey: bool, merge: FullMerge)
    requires put.wtype == PutRecord && SameKey(c, put.key, key) && OnlyIgnoredFor(b, key, c)
    ensures BatchLookup(a + [put] + b, cf, key, [], Some(c), value, overwriteKey, merge) == Lookup(kFound, OK, put.value, [])
  {
    NewestEntryDecides(a, put, b, key, c, InitialScan([]), overwriteKey);
  }

  /** The newest Delete or SingleDelete wins: kDeleted, *value untouched. */
  lemma NewestDeleteWins(a: seq<WriteEntry>, del: WriteEntry, b: seq<WriteEntry>, cf: Option<ColumnFamilyHandle>,
                         key: Bytes, c: Comparator, value: Bytes, overwriteKey: bool, merge: FullMerge)
    requires del.wtype == DeleteRecord || del.wtype == SingleDeleteRecord
    requires SameKey(c, del.key, key) && OnlyIgnoredFor(b, key, c)
    ensures BatchLookup(a + [del] + b, cf, key, [], Some(c), value, overwriteKey, merge) == Lookup(kDeleted, OK, value, [])
  {
    NewestEntryDecides(a, del, b, key, c, InitialScan([]), overwriteKey);
  }

  /** A range deletion or an unknown entry for key stops the scan with
      kError and a Corruption naming the entry's type. */
  lemma UnexpectedEntryIsCorruption(a: seq<WriteEntry>, e: WriteEntry, b: seq<WriteEntry>, cf: Option<ColumnFamilyHandle>,
                                    key: Bytes, operands: seq<Bytes>, c: Comparator, value: Bytes, overwriteKey: bool,
                                    merge: FullMerge)
    requires e.wtype == DeleteRangeRecord || e.wtype == UnknownRecord
    requires SameKey(c, e.key, key) && OnlyIgnoredFor(b, key, c)
    ensures BatchLookup(a + [e] + b, cf, key, operands, Some(c), value, overwriteKey, merge) ==
            Lookup(kError, UnexpectedEntryError(e.wtype), value, operands)
    ensures UnexpectedEntryError(e.wtype).code == Corruption
  {
    var err := ScanState(kError, [], operands, UnexpectedEntryError(e.wtype));
    assert Step(InitialScan(operands), e) == err;
    NewestEntryDecides(a, e, b, key, c, InitialScan(operands), overwriteKey);
    assert Scan(NewestFirst(a + [e] + b, key, c), InitialScan(operands), overwriteKey) == err;
    assert !err.status.IsOk();
  }

  /** With overwrite_key the scan stops at the newest Merge and returns
      kMergeInProgress with that one operand pushed. */
  lemma OverwriteStopsAtNewestMerge(a: seq<WriteEntry>, m: WriteEntry, b: seq<WriteEntry>, cf: Option<ColumnFamilyHandle>,
                                    key: Bytes, operands: seq<Bytes>, c: Comparator, value: Bytes, merge: FullMerge)
    requires m.wtype == MergeRecord && SameKey(c, m.key, key) && OnlyIgnoredFor(b, key, c)
    ensures BatchLookup(a + [m] + b, cf, key, operands, Some(c), value, true, merge) ==
            Lookup(kMergeInProgress, OK, value, operands + [m.value])
  {
    NewestEntryDecides(a, m, b, key, c, InitialScan(operands), true);
  }

  /** The entries for key in b are Merges or skipped entries. */
  predicate OnlyMergesFor(b: seq<WriteEntry>, key: Bytes, c: Comparator) {
    forall j :: 0 <= j < |b| && SameKey(c, b[j].key, key) ==> b[j].wtype == MergeRecord || Ignored(b[j])
  }

  /** The operands of the Merges in es, in the order given. */
  function MergeValues(es: seq<WriteEntry>): (r: seq<Bytes>)
    ensures |r| <= |es|
    decreases |es|
  {
    if es == [] then []
    else if es[0].wtype == MergeRecord then [es[0].value] + MergeValues(es[1..])
    else MergeValues(es[1..])
  }

  /** No operand is collected exactly when there is no Merge. */
  lemma {:induction false} MergeValuesEmpty(es: seq<WriteEntry>)
    ensures MergeValues(es) == [] <==> forall j :: 0 <= j < |es| ==> es[j].wtype != MergeRecord
    decreases |es|
  {
    if es != [] {
      MergeValuesEmpty(es[1..]);
      assert forall j :: 1 <= j < |es| ==> es[j] == es[1..][j - 1];
    }
  }

  /** Without overwrite_key, a run of Merges and skipped entries pushes every
      operand, newest first, and never breaks. */
  lemma {:induction false} ScanCollectsMerges(es: seq<WriteEntry>, st: ScanState)
    requires forall j :: 0 <= j < |es| ==> es[j].wtype == MergeRecord || Ignored(es[j])
    requires st.result == kNotFound || st.result == kMergeInProgress
    ensures var r := Scan(es, st, false);
            r.result == (if MergeValues(es) == [] then st.result else kMergeInProgress) &&
            r.operands == st.operands + MergeValues(es) &&
            r.entryValue == st.entryValue && r.status == st.status
    decreases |es|
  {
    if es == [] {
      assert st.operands + [] == st.operands;
    } else {
      var next := Step(st, es[0]);
      ScanCollectsMerges(es[1..], next);
      if es[0].wtype == MergeRecord {
        AppendAssoc(st.operands, es[0].value, MergeValues(es[1..]));
      }
    }
  }

  lemma AppendAssoc<T>(a: seq<T>, v: T, m: seq<T>)
    ensures a + ([v] + m) == (a + [v]) + m
  {
  }

  /** Every entry for key is a Merge or skipped, without overwrite_key: the
      result is kMergeInProgress with every operand pushed newest first, or
      kNotFound when there is no Merge; *value is untouched either way. */
  lemma MergesWithoutBase(entries: seq<WriteEntry>, cf: Option<ColumnFamilyHandle>, key: Bytes, operands: seq<Bytes>,
                          c: Comparator, value: Bytes, merge: FullMerge)
    requires OnlyMergesFor(entries, key, c)
    ensures var pushed := MergeValues(NewestFirst(entries, key, c));
            BatchLookup(entries, cf, key, operands, Some(c), value, false, merge) ==
              if pushed == [] then Lookup(kNotFound, OK, value, operands)
              else Lookup(kMergeInProgress, OK, value, operands + pushed)
  {
    var nf := NewestFirst(entries, key, c);
    assert forall j :: 0 <= j < |nf| ==> nf[j].wtype == MergeRecord || Ignored(nf[j]);
    ScanCollectsMerges(nf, InitialScan(operands));
    if MergeValues(nf) == [] {
      assert operands + [] == operands;
    }
  }

  /** The scan state from an entry e for key over Merges and skipped entries
      in b, without overwrite_key: every operand in b pushed, then e applied. */
  lemma MergesThenEntry(a: seq<WriteEntry>, e: WriteEntry, b: seq<WriteEntry>, key: Bytes, operands: seq<Bytes>, c: Comparator)
    requires SameKey(c, e.key, key) && OnlyMergesFor(b, key, c)
    requires e.wtype == PutRecord || e.wtype == DeleteRecord || e.wtype == SingleDeleteRecord
    ensures Scan(NewestFirst(a + [e] + b, key, c), InitialScan(operands), false) ==
              ScanState(if e.wtype == PutRecord then kFound else kDeleted,
                        if e.wtype == PutRecord then e.value else [],
                        operands + MergeValues(NewestFirst(b, key, c)), OK)
  {
    NewestFirstAround(a, e, b, key, c);
    var nb := NewestFirst(b, key, c);
    var na := NewestFirst(a, key, c);
    assert forall j :: 0 <= j < |nb| ==> nb[j].wtype == MergeRecord || Ignored(nb[j]);
    ScanCollectsMerges(nb, InitialScan(operands));
    var st1 := Scan(nb, InitialScan(operands), false);
    assert st1 == ScanState(if MergeValues(nb) == [] then kNotFound else kMergeInProgress, [], operands + MergeValues(nb), OK);
    ScanConcat(nb, [e] + na, InitialScan(operands), false);
    ScanHead(e, na, st1, false);
  }

  /** Merges over a Put: the full merge runs over the Put's value and every
      operand, and the result is kFound exactly when the merge succeeds. */
  lemma MergesOverPut(a: seq<WriteEntry>, put: WriteEntry, b: seq<WriteEntry>, h: ColumnFamilyHandle, op: MergeOperator,
                      key: Bytes, operands: seq<Bytes>, c: Comparator, value: Bytes, merge: FullMerge)
    requires put.wtype == PutRecord && SameKey(c, put.key, key) && OnlyMergesFor(b, key, c)
    requires h.mergeOperator == Some(op)
    requires operands + MergeValues(NewestFirst(b, key, c)) != []
    ensures var ops := operands + MergeValues(NewestFirst(b, key, c));
            var m := merge(op, key, Some(put.value), ops);
            BatchLookup(a + [put] + b, Some(h), key, operands, Some(c), value, false, merge) ==
              Lookup(if m.status.IsOk() then kFound else kError, m.status, m.value, ops)
  {
    MergesThenEntry(a, put, b, key, operands, c);
  }

  /** Merges over a Delete: the full merge runs with no existing value. */
  lemma MergesOverDelete(a: seq<WriteEntry>, del: WriteEntry, b: seq<WriteEntry>, h: ColumnFamilyHandle, op: MergeOperator,
                         key: Bytes, operands: seq<Bytes>, c: Comparator, value: Bytes, merge: FullMerge)
    requires (del.wtype == DeleteRecord || del.wtype == SingleDeleteRecord) && SameKey(c, del.key, key)
    requires OnlyMergesFor(b, key, c) && h.mergeOperator == Some(op)
    requires operands + MergeValues(NewestFirst(b, key, c)) != []
    ensures var ops := operands + MergeValues(NewestFirst(b, key, c));
            var m := merge(op, key, None, ops);
            BatchLookup(a + [del] + b, Some(h), key, operands, Some(c), value, false, merge) ==
              Lookup(if m.status.IsOk() then kFound else kError, m.status, m.value, ops)
  {
    MergesThenEntry(a, del, b, key, operands, c);
  }

  /** Pending operands need a column family and a merge operator: without
      either the result is kError with InvalidArgument and *value untouched. */
  lemma MergeNeedsOperator(a: seq<WriteEntry>, e: WriteEntry, b: seq<WriteEntry>, cf: Option<ColumnFamilyHandle>,
                           key: Bytes, operands: seq<Bytes>, c: Comparator, value: Bytes, merge: FullMerge)
    requires (e.wtype == PutRecord || e.wtype == DeleteRecord || e.wtype == SingleDeleteRecord) && SameKey(c, e.key, key)
    requires OnlyMergesFor(b, key, c)
    requires operands + MergeValues(NewestFirst(b, key, c)) != []
    requires cf.None? || cf.value.mergeOperator.None?
    ensures var ops := operands + MergeValues(NewestFirst(b, key, c));
            BatchLookup(a + [e] + b, cf, key, operands, Some(c), value, false, merge) ==
              Lookup(kError, if cf.None? then NoColumnFamilyError else NoMergeOperatorError, value, ops)
  {
    MergesThenEntry(a, e, b, key, operands, c);
  }

  /** As written, a Delete under Merges reads exactly like a Put of the
      empty value, whatever the merge operator does. */
  lemma DeleteReadsAsEmptyPutAsWritten(a: seq<WriteEntry>, del: WriteEntry, b: seq<WriteEntry>, h: ColumnFamilyHandle,
                                       op: MergeOperator, key: Bytes, operands: seq<Bytes>, c: Comparator,
                                       value: Bytes, merge: FullMerge)
    requires (del.wtype == DeleteRecord || del.wtype == SingleDeleteRecord) && SameKey(c, del.key, key)
    requires OnlyMergesFor(b, key, c) && h.mergeOperator == Some(op)
    requires operands + MergeValues(NewestFirst(b, key, c)) != []
    ensures BatchLookupAsWritten(a + [del] + b, Some(h), key, operands, Some(c), value, false, merge) ==
            BatchLookupAsWritten(a + [WriteEntry(del.key, PutRecord, [])] + b, Some(h), key, operands, Some(c), value, false, merge)
  {
    var put := WriteEntry(del.key, PutRecord, []);
    var ops := operands + MergeValues(NewestFirst(b, key, c));
    MergesThenEntry(a, del, b, key, operands, c);
    MergesThenEntry(a, put, b, key, operands, c);
    var deleted := ScanState(kDeleted, [], ops, OK);
    var found := ScanState(kFound, [], ops, OK);
    assert Resolve(deleted, Some(h), key, value, merge, Some([])) == Resolve(found, Some(h), key, value, merge, Some([]));
  }

  /** A merge operator that reports only whether it saw an existing value. */
  function SawBase(op: MergeOperator, key: Bytes, base: Option<Bytes>, operands: seq<Bytes>): MergeOutcome {
    MergeOutcome(OK, if base.None? then [0] else [1])
  }

  /** A batch holding one Merge for key. */
  lemma SingleMerge(key: Bytes, operand: Bytes, c: Comparator)
    requires SameKey(c, key, key)
    ensures var merges := [WriteEntry(key, MergeRecord, operand)];
            NewestFirst(merges, key, c) == merges && MergeValues(merges) == [operand] &&
            OnlyMergesFor(merges, key, c)
  {
    var merges := [WriteEntry(key, MergeRecord, operand)];
    assert merges[..0] == [];
  }

  /** Corrected, the two are told apart by a merge operator that reports
      whether it saw an existing value. */
  lemma DeleteDiffersFromEmptyPut(key: Bytes, operand: Bytes, h: ColumnFamilyHandle, op: MergeOperator, c: Comparator, value: Bytes)
    requires h.mergeOperator == Some(op) && SameKey(c, key, key)
    ensures BatchLookup([WriteEntry(key, DeleteRecord, []), WriteEntry(key, MergeRecord, operand)],
                        Some(h), key, [], Some(c), value, false, SawBase).value == [0]
    ensures BatchLookup([WriteEntry(key, PutRecord, []), WriteEntry(key, MergeRecord, operand)],
                        Some(h), key, [], Some(c), value, false, SawBase).value == [1]
  {
    var merges := [WriteEntry(key, MergeRecord, operand)];
    var del := WriteEntry(key, DeleteRecord, []);
    var put := WriteEntry(key, PutRecord, []);
    SingleMerge(key, operand, c);
    assert [] + [del] + merges == [del, WriteEntry(key, MergeRecord, operand)];
    assert [] + [put] + merges == [put, WriteEntry(key, MergeRecord, operand)];
    MergesOverDelete([], del, merges, h, op, key, [], c, value, SawBase);
    MergesOverPut([], put, merges, h, op, key, [], c, value, SawBase);
  }

  // ---------------------------------------------------------------------
  // The method

  /** The MergeContext the caller passes in, reduced to its operand list. */
  class MergeContext {
    var operands: seq<Bytes>

    constructor (operands: seq<Bytes>)
      ensures this.operands == operands
    {
      this.operands := operands;
    }

    function GetNumOperands(): nat
      reads this
    {
      |operands|
    }

    method PushOperand(operand: Bytes)
      modifies this
      ensures operands == old(operands) + [operand]
    {
      operands := operands + [operand];
    }
  }

  /** Walking one more entry back from position i. */
  lemma ScanBackStep(entries: seq<WriteEntry>, i: nat, key: Bytes, c: Comparator, st: ScanState, overwriteKey: bool)
    requires 0 < i <= |entries|
    ensures var e := entries[i - 1];
            var rest := NewestFirst(entries[..i - 1], key, c);
            Scan(NewestFirst(entries[..i], key, c), st, overwriteKey) ==
              if !SameKey(c, e.key, key) then Scan(rest, st, overwriteKey)
              else if Stops(Step(st, e), overwriteKey) then Step(st, e)
              else Scan(rest, Step(st, e), overwriteKey)
  {
    var e := entries[i - 1];
    assert entries[..i][..i - 1] == entries[..i - 1];
    if SameKey(c, e.key, key) {
      var es := NewestFirst(entries[..i], key, c);
      assert es[0] == e && es[1..] == NewestFirst(entries[..i - 1], key, c);
    }
  }

  /** One pass of the switch on entry.type, pushing a Merge's operand. */
  method ApplyEntry(entry: WriteEntry, result: LookupResult, entryValue: Bytes, s: Status, mergeContext: MergeContext)
    returns (result': LookupResult, entryValue': Bytes, s': Status)
    modifies mergeContext
    ensures ScanState(result', entryValue', mergeContext.operands, s') ==
            Step(ScanState(result, entryValue, old(mergeContext.operands), s), entry)
  {
    result', entryValue', s' := result, entryValue, s;
    match entry.wtype
    case PutRecord =>
      result' := kFound;
      entryValue' := entry.value;
    case MergeRecord =>
      result' := kMergeInProgress;
      mergeContext.PushOperand(entry.value);
    case DeleteRecord =>
      result' := kDeleted;
    case SingleDeleteRecord =>
      result' := kDeleted;
    case LogDataRecord =>
    case XIDRecord =>
    case DeleteRangeRecord =>
      result' := kError;
      s' := UnexpectedEntryError(entry.wtype);
    case UnknownRecord =>
      result' := kError;
      s' := UnexpectedEntryError(entry.wtype);
  }

  /** One iteration of the backward loop: an entry for key goes through the
      switch, then the two break tests; an entry for another key is passed over. */
  method VisitEntry(entry: WriteEntry, key: Bytes, c: Comparator, overwriteKey: bool,
                    result: LookupResult, entryValue: Bytes, s: Status, mergeContext: MergeContext)
    returns (result': LookupResult, entryValue': Bytes, s': Status, stop: bool)
    modifies mergeContext
    ensures var st := ScanState(result, entryValue, old(mergeContext.operands), s);
            var next := ScanState(result', entryValue', mergeContext.operands, s');
            if SameKey(c, entry.key, key) then next == Step(st, entry) && stop == Stops(next, overwriteKey)
            else next == st && !stop
  {
    result', entryValue', s', stop := result, entryValue, s, false;
    if SameKey(c, entry.key, key) {
      result', entryValue', s' := ApplyEntry(entry, result, entryValue, s, mergeContext);
      if result' == kFound || result' == kDeleted || result' == kError {
        stop := true;
      } else if result' == kMergeInProgress && overwriteKey {
        stop := true;
      }
    }
  }

  /** The two loops of GetFromBatch: the entries for key, newest first, until
      a Put, a Delete, an unexpected entry or (with overwrite_key) a Merge. */
  method ScanBatch(entries: seq<WriteEntry>, key: Bytes, c: Comparator, mergeContext: MergeContext, overwriteKey: bool)
    returns (result: LookupResult, entryValue: Bytes, s: Status)
    modifies mergeContext
    ensures ScanState(result, entryValue, mergeContext.operands, s) ==
            Scan(NewestFirst(entries, key, c), InitialScan(old(mergeContext.operands)), overwriteKey)
  {
    s := OK;
    result := kNotFound;
    entryValue := [];
    ghost var final := Scan(NewestFirst(entries, key, c), InitialScan(mergeContext.operands), overwriteKey);
    var i := |entries|;
    assert entries[..i] == entries;
    while i > 0
      invariant 0 <= i <= |entries|
      invariant Scan(NewestFirst(entries[..i], key, c), ScanState(result, entryValue, mergeContext.operands, s), overwriteKey) == final
      decreases i
    {
      ghost var st := ScanState(result, entryValue, mergeContext.operands, s);
      ScanBackStep(entries, i, key, c, st, overwriteKey);
      var stop;
      result, entryValue, s, stop := VisitEntry(entries[i - 1], key, c, overwriteKey, result, entryValue, s, mergeContext);
      if stop {
        break;
      }
      i := i - 1;
    }
  }

  /** GetFromBatch: the scan, then the merge decision. value is *value on
      entry and valueOut on return. */
  method GetFromBatch(entries: seq<WriteEntry>, cf: Option<ColumnFamilyHandle>, key: Bytes, mergeContext: MergeContext,
                      cmp: Option<Comparator>, value: Bytes, overwriteKey: bool, merge: FullMerge)
    returns (result: LookupResult, s: Status, valueOut: Bytes)
    modifies mergeContext
    ensures Lookup(result, s, valueOut, mergeContext.operands) ==
            BatchLookup(entries, cf, key, old(mergeContext.operands), cmp, value, overwriteKey, merge)
  {
    s := OK;
    result := kNotFound;
    valueOut := value;
    if cmp.None? {
      return;
    }
    var entryValue;
    result, entryValue, s := ScanBatch(entries, key, cmp.value, mergeContext, overwriteKey);
    if s.IsOk() {
      if result == kFound || result == kDeleted {
        if mergeContext.GetNumOperands() > 0 {
          if cf.None? {
            s := NoColumnFamilyError;
            result := kError;
            return;
          }
          var mergeOperator := cf.value.mergeOperator;
          if mergeOperator.Some? {
            var base := if result == kFound then Some(entryValue) else None;
            var m := merge(mergeOperator.value, key, base, mergeContext.operands);
            s := m.status;
            valueOut := m.value;
          } else {
            s := NoMergeOperatorError;
          }
          result := if s.IsOk() then kFound else kError;
        } else if result == kFound {
          valueOut := entryValue;
        }
      }
    }
  }
}
