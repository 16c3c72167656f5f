/**
 * `Amcache8Parser._ProcessAMCacheFileKey`: one pass over the values of a
 * `\Root\File` key, then one FILETIME Modification event at value "17" and up
 * to three more for the created, last-modified and linker times.
 */
module Amcache8File {
  import opened Python
  import opened Events
  import opened Registry
  import opened Scanning

  /** The attributes a value of a `\Root\File` key can set. */
  datatype Field =
    | Datetime | FullPath | Sha1 | ProductName | CompanyName | FileVersion | Language
    | FileSize | FileDescription | LinkerTs | LastModifiedTs | CreatedTs | ProgramId

  /** The value name of each attribute (the `_AMCACHE_*` constants). */
  function NameOf(f: Field): string {
    match f
    case Sha1 => "101"
    case Datetime => "17"
    case FullPath => "15"
    case ProductName => "0"
    case CompanyName => "1"
    case FileVersion => "5"
    case Language => "3"
    case FileSize => "6"
    case FileDescription => "c"
    case LinkerTs => "f"
    case LastModifiedTs => "11"
    case CreatedTs => "12"
    case ProgramId => "100"
  }

  const KnownNames := {"17", "15", "101", "0", "1", "5", "3", "6", "c", "f", "11", "12", "100"}

  /** The if/elif chain: the attribute a value name selects, checked in the chain's order. */
  function FieldNamed(name: string): Option<Field> {
    if name == NameOf(Datetime) then Some(Datetime)
    else if name == NameOf(FullPath) then Some(FullPath)
    else if name == NameOf(Sha1) then Some(Sha1)
    else if name == NameOf(ProductName) then Some(ProductName)
    else if name == NameOf(CompanyName) then Some(CompanyName)
    else if name == NameOf(FileVersion) then Some(FileVersion)
    else if name == NameOf(Language) then Some(Language)
    else if name == NameOf(FileSize) then Some(FileSize)
    else if name == NameOf(FileDescription) then Some(FileDescription)
    else if name == NameOf(LinkerTs) then Some(LinkerTs)
    else if name == NameOf(LastModifiedTs) then Some(LastModifiedTs)
    else if name == NameOf(CreatedTs) then Some(CreatedTs)
    else if name == NameOf(ProgramId) then Some(ProgramId)
    else None
  }

  /** The chain selects an attribute exactly for its own name, and no name selects two. */
  lemma FieldTable(name: string, f: Field)
    ensures FieldNamed(name) == Some(f) <==> name == NameOf(f)
    ensures FieldNamed(name).Some? <==> name in KnownNames
  {
  }

  /** Each name selects its own attribute, so no two attributes share a name. */
  lemma NamesSelectTheirFields()
    ensures forall f :: FieldNamed(NameOf(f)) == Some(f)
  {
    forall f ensures FieldNamed(NameOf(f)) == Some(f) {
      FieldTable(NameOf(f), f);
    }
  }

  /** The event data and `amcache_datetime`, the value of "17" (0 until one is seen). */
  type State = ScanState<FileFields, int>

  const Start: State := ScanState(NoFileFields, 0)

  /** One branch of the chain: convert the data and store it, or raise. */
  function Store(s: State, f: Field, p: Payload): Result<State> {
    var r := s.fields;
    match f
    case Datetime => var n :- IntOf(p); Success(s.(acc := n))
    case FullPath => var t :- FormatStr(p); Success(s.(fields := r.(fullPath := Some(t))))
    case Sha1 => var h :- Sha1Of(p); Success(s.(fields := r.(sha1 := Some(h))))
    case ProductName => var t :- FormatStr(p); Success(s.(fields := r.(productName := Some(t))))
    case CompanyName => var t :- FormatStr(p); Success(s.(fields := r.(companyName := Some(t))))
    case FileVersion => var t :- FormatStr(p); Success(s.(fields := r.(fileVersion := Some(t))))
    case Language => var n :- IntOf(p); Success(s.(fields := r.(languageCode := Some(n))))
    case FileSize => var n :- IntOf(p); Success(s.(fields := r.(fileSize := Some(n))))
    case FileDescription => var t :- FormatStr(p); Success(s.(fields := r.(fileDescription := Some(t))))
    case LinkerTs => var n :- IntOf(p); Success(s.(fields := r.(linkerTs := Some(n))))
    case LastModifiedTs => var n :- IntOf(p); Success(s.(fields := r.(lastModifiedTs := Some(n))))
    case CreatedTs => var n :- IntOf(p); Success(s.(fields := r.(createdTs := Some(n))))
    case ProgramId => var t :- FormatStr(p); Success(s.(fields := r.(programId := Some(t))))
  }

  /** One turn of the loop; a name outside the chain changes nothing. */
  function Step(s: State, v: RegistryValue): Result<State> {
    match FieldNamed(v.name)
    case None => Success(s)
    case Some(f) => Store(s, f, v.data)
  }

  /** The events emitted after the loop, in order. */
  function Stamps(s: State): seq<Stamp> {
    [Stamp(Filetime(s.acc), Modification)]
    + (if Truthy(s.fields.createdTs) then [Stamp(Filetime(s.fields.createdTs.value), Creation)] else [])
    + (if Truthy(s.fields.lastModifiedTs) then [Stamp(Filetime(s.fields.lastModifiedTs.value), Modification)] else [])
    + (if Truthy(s.fields.linkerTs) then [Stamp(Posix(s.fields.linkerTs.value), Change)] else [])
  }

  function Decode(values: seq<RegistryValue>): Result<Decoded<FileFields>> {
    var s :- Scan(Step, Start, values);
    Success(Decoded(s.fields, Stamps(s)))
  }

  /** What the sink receives from a `\Root\File` key, or the exception that reaches the caller. */
  function Extract(values: seq<RegistryValue>): Result<seq<Emission>> {
    var d :- Decode(values);
    Success(Attach(FileData(d.record), d.stamps))
  }

  // ---------------------------------------------------------------------------
  // The decoder as the source writes it
  // ---------------------------------------------------------------------------

  /** One turn of the loop: the branch of the chain the value's name selects. */
  method StoreValue(data: AmcacheEventData, datetime: int, value: RegistryValue) returns (datetime': int, failure: Option<PyError>)
    modifies data
    ensures Step(ScanState(old(data.Fields()), datetime), value) ==
              if failure.None? then Success(ScanState(data.Fields(), datetime')) else Failure(failure.value)
  {
    datetime', failure := datetime, None;
    match FieldNamed(value.name) {
      case None =>
      case Some(Datetime) =>
        var n := IntOf(value.data);
        if n.Success? { datetime' := n.value; } else { failure := Some(n.error); }
      case Some(FullPath) =>
        var t := FormatStr(value.data);
        if t.Success? { data.fullPath := Some(t.value); } else { failure := Some(t.error); }
      case Some(Sha1) =>
        var h := Sha1Of(value.data);
        if h.Success? { data.sha1 := Some(h.value); } else { failure := Some(h.error); }
      case Some(ProductName) =>
        var t := FormatStr(value.data);
        if t.Success? { data.productName := Some(t.value); } else { failure := Some(t.error); }
      case Some(CompanyName) =>
        var t := FormatStr(value.data);
        if t.Success? { data.companyName := Some(t.value); } else { failure := Some(t.error); }
      case Some(FileVersion) =>
        var t := FormatStr(value.data);
        if t.Success? { data.fileVersion := Some(t.value); } else { failure := Some(t.error); }
      case Some(Language) =>
        var n := IntOf(value.data);
        if n.Success? { data.languageCode := Some(n.value); } else { failure := Some(n.error); }
      case Some(FileSize) =>
        var n := IntOf(value.data);
        if n.Success? { data.fileSize := Some(n.value); } else { failure := Some(n.error); }
      case Some(FileDescription) =>
        var t := FormatStr(value.data);
        if t.Success? { data.fileDescription := Some(t.value); } else { failure := Some(t.error); }
      case Some(LinkerTs) =>
        var n := IntOf(value.data);
        if n.Success? { data.linkerTs := Some(n.value); } else { failure := Some(n.error); }
      case Some(LastModifiedTs) =>
        var n := IntOf(value.data);
        if n.Success? { data.lastModifiedTs := Some(n.value); } else { failure := Some(n.error); }
      case Some(CreatedTs) =>
        var n := IntOf(value.data);
        if n.Success? { data.createdTs := Some(n.value); } else { failure := Some(n.error); }
      case Some(ProgramId) =>
        var t := FormatStr(value.data);
        if t.Success? { data.programId := Some(t.value); } else { failure := Some(t.error); }
    }
  }

  /** What the sink receives once the loop has run over every value. */
  lemma ExtractAfterScan(values: seq<RegistryValue>, s: State)
    requires Scan(Step, Start, values) == Success(s)
    ensures Extract(values) == Success(Attach(FileData(s.fields), Stamps(s)))
  {
  }

  /** The events produced after the loop: a Modification at `amcache_datetime`, then one for
      each of the creation, modification and linker times that is set and nonzero. */
  method ProduceEvents(sink: EventSink, fields: FileFields, datetime: int)
    modifies sink
    ensures sink.emitted == old(sink.emitted) + Attach(FileData(fields), Stamps(ScanState(fields, datetime)))
  {
    var record := FileData(fields);
    ghost var stamps: seq<Stamp> := [];
    assert old(sink.emitted) + Attach(record, stamps) == old(sink.emitted);
    var stamp := Stamp(Filetime(datetime), Modification);
    AttachOneMore(old(sink.emitted), record, stamps, stamp);
    sink.Produce(record, stamp);
    stamps := stamps + [stamp];
    assert sink.emitted == old(sink.emitted) + Attach(record, stamps);
    if Truthy(fields.createdTs) {
      stamp := Stamp(Filetime(fields.createdTs.value), Creation);
      AttachOneMore(old(sink.emitted), record, stamps, stamp);
      sink.Produce(record, stamp);
      stamps := stamps + [stamp];
      assert sink.emitted == old(sink.emitted) + Attach(record, stamps);
    }
    if Truthy(fields.lastModifiedTs) {
      stamp := Stamp(Filetime(fields.lastModifiedTs.value), Modification);
      AttachOneMore(old(sink.emitted), record, stamps, stamp);
      sink.Produce(record, stamp);
      stamps := stamps + [stamp];
      assert sink.emitted == old(sink.emitted) + Attach(record, stamps);
    }
    if Truthy(fields.linkerTs) {
      stamp := Stamp(Posix(fields.linkerTs.value), Change);
      AttachOneMore(old(sink.emitted), record, stamps, stamp);
      sink.Produce(record, stamp);
      stamps := stamps + [stamp];
      assert sink.emitted == old(sink.emitted) + Attach(record, stamps);
    }
    assert stamps == Stamps(ScanState(fields, datetime));
  }

  /** `_ProcessAMCacheFileKey`. */
  method ProcessKey(key: RegistryKey, sink: EventSink) returns (outcome: Outcome)
    modifies sink
    ensures outcome == OutcomeOf(Extract(key.values))
    ensures sink.emitted == old(sink.emitted) + Extract(key.values).GetOr([])
  {
    var datetime := 0;
    var data := new AmcacheEventData();
    for i := 0 to |key.values|
      modifies data
      invariant Scan(Step, Start, key.values[..i]) == Success(ScanState(data.Fields(), datetime))
    {
      ScanOneMore(Step, Start, key.values, i);
      var failure;
      datetime, failure := StoreValue(data, datetime, key.values[i]);
      if failure.Some? {
        ScanStopsAtFailure(Step, Start, key.values, i + 1);
        return Fail(failure.value);
      }
    }
    assert key.values[..|key.values|] == key.values;
    ExtractAfterScan(key.values, ScanState(data.Fields(), datetime));
    ProduceEvents(sink, data.Fields(), datetime);
    return Pass;
  }

  // ---------------------------------------------------------------------------
  // What the decoder computes, stated from the values
  // ---------------------------------------------------------------------------

  /** The last value named after attribute `f`. */
  function Last(values: seq<RegistryValue>, f: Field): Option<RegistryValue> {
    LastNamed(values, NameOf(f), Never)
  }

  /** Each attribute holds what the LAST value of its name holds, None if no value has that name. */
  function Reference(values: seq<RegistryValue>): FileFields {
    FileFields(
      fullPath := TextOf(Last(values, FullPath)),
      sha1 := HashOf(Last(values, Sha1)),
      productName := TextOf(Last(values, ProductName)),
      companyName := TextOf(Last(values, CompanyName)),
      fileVersion := TextOf(Last(values, FileVersion)),
      languageCode := IntegerOf(Last(values, Language)),
      fileSize := IntegerOf(Last(values, FileSize)),
      fileDescription := TextOf(Last(values, FileDescription)),
      linkerTs := IntegerOf(Last(values, LinkerTs)),
      lastModifiedTs := IntegerOf(Last(values, LastModifiedTs)),
      createdTs := IntegerOf(Last(values, CreatedTs)),
      programId := TextOf(Last(values, ProgramId)))
  }

  /** Value "17" as an integer, 0 when the key has none. */
  function DatetimeOf(values: seq<RegistryValue>): int {
    IntegerOr(Last(values, Datetime), 0)
  }

  /** A value is accepted when it carries the kind of data its attribute's conversion takes. */
  predicate Accepts(v: RegistryValue) {
    match FieldNamed(v.name)
    case None => true
    case Some(f) =>
      if f in {Datetime, Language, FileSize, LinkerTs, LastModifiedTs, CreatedTs} then v.data.Int? else v.data.Str?
  }

  lemma ScanReadsLastValues(values: seq<RegistryValue>)
    requires Scan(Step, Start, values).Success?
    ensures Scan(Step, Start, values).value == ScanState(Reference(values), DatetimeOf(values))
  {
    var track := vs => ScanState(Reference(vs), DatetimeOf(vs));
    forall front, v | Step(track(front), v).Success?
      ensures Step(track(front), v).value == track(front + [v])
    {
      StepReadsLastValue(front, v);
    }
    ScanFollows(Step, track, values);
  }

  /** Appending a value changes the last value of its own attribute only. */
  lemma LastOneMore(front: seq<RegistryValue>, v: RegistryValue)
    ensures forall g :: Last(front + [v], g) == if FieldNamed(v.name) == Some(g) then Some(v) else Last(front, g)
  {
    LastNamedOneMore(front, v);
    forall g ensures Hits(v, NameOf(g), Never) <==> FieldNamed(v.name) == Some(g) {
      FieldTable(v.name, g);
    }
  }

  /** The record with attribute `f` read from `v` alone. */
  function Put(r: FileFields, f: Field, v: RegistryValue): FileFields {
    match f
    case Datetime => r
    case FullPath => r.(fullPath := TextOf(Some(v)))
    case Sha1 => r.(sha1 := HashOf(Some(v)))
    case ProductName => r.(productName := TextOf(Some(v)))
    case CompanyName => r.(companyName := TextOf(Some(v)))
    case FileVersion => r.(fileVersion := TextOf(Some(v)))
    case Language => r.(languageCode := IntegerOf(Some(v)))
    case FileSize => r.(fileSize := IntegerOf(Some(v)))
    case FileDescription => r.(fileDescription := TextOf(Some(v)))
    case LinkerTs => r.(linkerTs := IntegerOf(Some(v)))
    case LastModifiedTs => r.(lastModifiedTs := IntegerOf(Some(v)))
    case CreatedTs => r.(createdTs := IntegerOf(Some(v)))
    case ProgramId => r.(programId := TextOf(Some(v)))
  }

  /** A value of a known name replaces its own attribute in the reference record. */
  lemma ReferenceOneMore(front: seq<RegistryValue>, v: RegistryValue, f: Field)
    requires FieldNamed(v.name) == Some(f)
    ensures Reference(front + [v]) == Put(Reference(front), f, v)
  {
    LastOneMore(front, v);
  }

  /** A step that does not raise stores the value into its own attribute. */
  lemma StepPuts(s: State, v: RegistryValue, f: Field)
    requires FieldNamed(v.name) == Some(f) && Step(s, v).Success?
    ensures Step(s, v).value.fields == Put(s.fields, f, v)
    ensures Step(s, v).value.acc == if f == Datetime then IntegerOr(Some(v), 0) else s.acc
  {
  }

  lemma StepReadsLastValue(front: seq<RegistryValue>, v: RegistryValue)
    requires Step(ScanState(Reference(front), DatetimeOf(front)), v).Success?
    ensures Step(ScanState(Reference(front), DatetimeOf(front)), v).value ==
              ScanState(Reference(front + [v]), DatetimeOf(front + [v]))
  {
    match FieldNamed(v.name)
    case None =>
      LastOneMore(front, v);
      assert Reference(front + [v]) == Reference(front);
    case Some(f) =>
      LastOneMore(front, v);
      ReferenceOneMore(front, v, f);
      StepPuts(ScanState(Reference(front), DatetimeOf(front)), v, f);
  }

  /** The record is the last value of each name; the events are, in order, a FILETIME
      Modification at "17" (0 when absent), then Creation, Modification and a POSIX Change
      for each of "12", "11" and "f" whose last value is a nonzero integer. */
  lemma DecodeReadsLastValues(values: seq<RegistryValue>)
    requires Decode(values).Success?
    ensures Decode(values).value.record == Reference(values)
    ensures var r := Reference(values);
            Decode(values).value.stamps ==
              [Stamp(Filetime(DatetimeOf(values)), Modification)]
              + (if Truthy(r.createdTs) then [Stamp(Filetime(r.createdTs.value), Creation)] else [])
              + (if Truthy(r.lastModifiedTs) then [Stamp(Filetime(r.lastModifiedTs.value), Modification)] else [])
              + (if Truthy(r.linkerTs) then [Stamp(Posix(r.linkerTs.value), Change)] else [])
  {
    ScanReadsLastValues(values);
  }

  /** Between one and four events, the first always a FILETIME Modification. */
  lemma EventCount(values: seq<RegistryValue>)
    requires Decode(values).Success?
    ensures 1 <= |Decode(values).value.stamps| <= 4
    ensures Decode(values).value.stamps[0] == Stamp(Filetime(DatetimeOf(values)), Modification)
  {
    DecodeReadsLastValues(values);
  }

  /** The pass raises exactly when some value of a known name holds data its conversion refuses. */
  lemma DecodeSucceedsIffAccepted(values: seq<RegistryValue>)
    ensures Decode(values).Success? <==> forall i :: 0 <= i < |values| ==> Accepts(values[i])
  {
    ScanSucceedsIffAllAccepted(Step, Start, values, Accepts);
  }

  /** A value whose name is not in the table can be removed without changing anything. */
  lemma UnknownNameIgnored(before: seq<RegistryValue>, v: RegistryValue, after: seq<RegistryValue>)
    requires v.name !in KnownNames
    ensures Decode(before + [v] + after) == Decode(before + after)
  {
    FieldTable(v.name, Datetime);
    ScanSkipsIdle(Step, Start, before, v, after);
  }

  /** A key none of whose value names is in the table yields a record with every attribute None. */
  lemma NoKnownNameLeavesRecordEmpty(values: seq<RegistryValue>)
    requires forall i :: 0 <= i < |values| ==> values[i].name !in KnownNames
    ensures Decode(values) == Success(Decoded(NoFileFields, [Stamp(Filetime(0), Modification)]))
  {
    forall i | 0 <= i < |values| ensures Accepts(values[i]) {
      FieldTable(values[i].name, Datetime);
    }
    DecodeSucceedsIffAccepted(values);
    DecodeReadsLastValues(values);
    forall g ensures Last(values, g) == None {
      LastNamedIsLast(values, NameOf(g), Never);
      FieldTable(NameOf(g), g);
    }
    assert Decode(values).value.stamps == [Stamp(Filetime(0), Modification)];
  }
}
