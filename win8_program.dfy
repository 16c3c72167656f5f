/**
 * `Amcache8Parser._ProcessAMCacheProgramKey`: one pass over the values of a
 * `\Root\Programs` key, then one POSIX Installation event at value "a".
 */
module Amcache8Program {
  import opened Python
  import opened Events
  import opened Registry
  import opened Scanning

  /** The attributes a value of a `\Root\Programs` key can set. */
  datatype Field =
    | InstallDate | Name | Version | Publisher | Language | EntryType | UninstallKey
    | FilePaths | ProductCode | PackageCode | MsiProductCode | MsiPackageCode | Files

  /** The value name of each attribute (the `_AMCACHE_P_*` constants). */
  function NameOf(f: Field): string {
    match f
    case InstallDate => "a"
    case Name => "0"
    case Version => "1"
    case Publisher => "2"
    case Language => "3"
    case EntryType => "6"
    case UninstallKey => "7"
    case FilePaths => "d"
    case ProductCode => "f"
    case PackageCode => "10"
    case MsiProductCode => "11"
    case MsiPackageCode => "12"
    case Files => "Files"
  }

  const KnownNames := {"a", "0", "1", "2", "3", "6", "7", "d", "f", "10", "11", "12", "Files"}

  /** The if/elif chain: the attribute a value name selects, checked in the chain's order. */
  function FieldNamed(name: string): Option<Field> {
    if name == NameOf(InstallDate) then Some(InstallDate)
    else if name == NameOf(Name) then Some(Name)
    else if name == NameOf(Version) then Some(Version)
    else if name == NameOf(Publisher) then Some(Publisher)
    else if name == NameOf(Language) then Some(Language)
    else if name == NameOf(EntryType) then Some(EntryType)
    else if name == NameOf(UninstallKey) then Some(UninstallKey)
    else if name == NameOf(FilePaths) then Some(FilePaths)
    else if name == NameOf(ProductCode) then Some(ProductCode)
    else if name == NameOf(PackageCode) then Some(PackageCode)
    else if name == NameOf(MsiProductCode) then Some(MsiProductCode)
    else if name == NameOf(MsiPackageCode) then Some(MsiPackageCode)
    else if name == NameOf(Files) then Some(Files)
    else None
  }

  /** The chain selects an attribute exactly for its own name, and no name selects two. */
  lemma FieldTable(name: string, f: Field)
    ensures FieldNamed(name) == Some(f) <==> name == NameOf(f)
    ensures FieldNamed(name).Some? <==> name in KnownNames
  {
  }

  /** Each name selects its own attribute, so no two attributes share a name. */
  lemma NamesSelectTheirFields()
    ensures forall f :: FieldNamed(NameOf(f)) == Some(f)
  {
    forall f ensures FieldNamed(NameOf(f)) == Some(f) {
      FieldTable(NameOf(f), f);
    }
  }

  /** The two attributes whose branch first checks that the data is not None. */
  predicate GuardsNone(f: Field) {
    f == UninstallKey || f == Files
  }

  /** The event data and `amcache_datetime`, the value of "a" (0 until one is seen). */
  type State = ScanState<ProgramFields, int>

  const Start: State := ScanState(NoProgramFields, 0)

  /** One branch of the chain: convert the data and store it, or raise. */
  function Store(s: State, f: Field, p: Payload): Result<State> {
    var r := s.fields;
    match f
    case InstallDate => var n :- IntOf(p); Success(s.(acc := n))
    case Name => var t :- FormatStr(p); Success(s.(fields := r.(name := Some(t))))
    case Version => var t :- FormatStr(p); Success(s.(fields := r.(version := Some(t))))
    case Publisher => var t :- FormatStr(p); Success(s.(fields := r.(publisher := Some(t))))
    case Language => var t :- FormatStr(p); Success(s.(fields := r.(languageCode := Some(Raw(t)))))
    case EntryType => var t :- FormatStr(p); Success(s.(fields := r.(entryType := Some(t))))
    case UninstallKey =>
      if p.NoData? then Success(s)
      else var t :- JoinPayload(p); Success(s.(fields := r.(uninstallKey := Some(t))))
    case FilePaths => var t :- JoinPayload(p); Success(s.(fields := r.(filePaths := Some(t))))
    case ProductCode => var t :- FormatStr(p); Success(s.(fields := r.(productCode := Some(t))))
    case PackageCode => var t :- FormatStr(p); Success(s.(fields := r.(packageCode := Some(t))))
    case MsiProductCode => var t :- JoinPayload(p); Success(s.(fields := r.(msiProductCode := Some(t))))
    case MsiPackageCode => var t :- JoinPayload(p); Success(s.(fields := r.(msiPackageCode := Some(t))))
    case Files =>
      if p.NoData? then Success(s)
      else var t :- JoinPayload(p); Success(s.(fields := r.(files := Some(t))))
  }

  /** One turn of the loop; a name outside the chain changes nothing. */
  function Step(s: State, v: RegistryValue): Result<State> {
    match FieldNamed(v.name)
    case None => Success(s)
    case Some(f) => Store(s, f, v.data)
  }

  /** The one event emitted after the loop. */
  function Stamps(s: State): seq<Stamp> {
    [Stamp(Posix(s.acc), Installation)]
  }

  function Decode(values: seq<RegistryValue>): Result<Decoded<ProgramFields>> {
    var s :- Scan(Step, Start, values);
    Success(Decoded(s.fields, Stamps(s)))
  }

  /** What the sink receives from a `\Root\Programs` key, or the exception that reaches the caller. */
  function Extract(values: seq<RegistryValue>): Result<seq<Emission>> {
    var d :- Decode(values);
    Success(Attach(ProgramData(d.record), d.stamps))
  }

  // ---------------------------------------------------------------------------
  // The decoder as the source writes it
  // ---------------------------------------------------------------------------

  /** One turn of the loop: the branch of the chain the value's name selects. */
  method StoreValue(data: AmcacheProgramEventData, datetime: int, value: RegistryValue)
    returns (datetime': int, failure: Option<PyError>)
    modifies data
    ensures Step(ScanState(old(data.Fields()), datetime), value) ==
              if failure.None? then Success(ScanState(data.Fields(), datetime')) else Failure(failure.value)
  {
    datetime', failure := datetime, None;
    match FieldNamed(value.name) {
      case None =>
      case Some(InstallDate) =>
        var n := IntOf(value.data);
        if n.Success? { datetime' := n.value; } else { failure := Some(n.error); }
      case Some(Name) =>
        var t := FormatStr(value.data);
        if t.Success? { data.name := Some(t.value); } else { failure := Some(t.error); }
      case Some(Version) =>
        var t := FormatStr(value.data);
        if t.Success? { data.version := Some(t.value); } else { failure := Some(t.error); }
      case Some(Publisher) =>
        var t := FormatStr(value.data);
        if t.Success? { data.publisher := Some(t.value); } else { failure := Some(t.error); }
      case Some(Language) =>
        var t := FormatStr(value.data);
        if t.Success? { data.languageCode := Some(Raw(t.value)); } else { failure := Some(t.error); }
      case Some(EntryType) =>
        var t := FormatStr(value.data);
        if t.Success? { data.entryType := Some(t.value); } else { failure := Some(t.error); }
      case Some(UninstallKey) =>
        if !value.data.NoData? {
          var t := JoinPayload(value.data);
          if t.Success? { data.uninstallKey := Some(t.value); } else { failure := Some(t.error); }
        }
      case Some(FilePaths) =>
        var t := JoinPayload(value.data);
        if t.Success? { data.filePaths := Some(t.value); } else { failure := Some(t.error); }
      case Some(ProductCode) =>
        var t := FormatStr(value.data);
        if t.Success? { data.productCode := Some(t.value); } else { failure := Some(t.error); }
      case Some(PackageCode) =>
        var t := FormatStr(value.data);
        if t.Success? { data.packageCode := Some(t.value); } else { failure := Some(t.error); }
      case Some(MsiProductCode) =>
        var t := JoinPayload(value.data);
        if t.Success? { data.msiProductCode := Some(t.value); } else { failure := Some(t.error); }
      case Some(MsiPackageCode) =>
        var t := JoinPayload(value.data);
        if t.Success? { data.msiPackageCode := Some(t.value); } else { failure := Some(t.error); }
      case Some(Files) =>
        if !value.data.NoData? {
          var t := JoinPayload(value.data);
          if t.Success? { data.files := Some(t.value); } else { failure := Some(t.error); }
        }
    }
  }

  /** `_ProcessAMCacheProgramKey`. */
  method ProcessKey(key: RegistryKey, sink: EventSink) returns (outcome: Outcome)
    modifies sink
    ensures outcome == OutcomeOf(Extract(key.values))
    ensures sink.emitted == old(sink.emitted) + Extract(key.values).GetOr([])
  {
    var datetime := 0;
    var data := new AmcacheProgramEventData();
    for i := 0 to |key.values|
      modifies data
      invariant Scan(Step, Start, key.values[..i]) == Success(ScanState(data.Fields(), datetime))
    {
      ScanOneMore(Step, Start, key.values, i);
      var failure;
      datetime, failure := StoreValue(data, datetime, key.values[i]);
      if failure.Some? {
        ScanStopsAtFailure(Step, Start, key.values, i + 1);
        return Fail(failure.value);
      }
    }
    assert key.values[..|key.values|] == key.values;
    sink.Produce(ProgramData(data.Fields()), Stamp(Posix(datetime), Installation));
    return Pass;
  }

  // ---------------------------------------------------------------------------
  // What the decoder computes, stated from the values
  // ---------------------------------------------------------------------------

  /** Which values of its name an attribute passes over: None where the branch checks for it. */
  function SkipOf(f: Field): Skip {
    if GuardsNone(f) then IfNoData else Never
  }

  /** The last value named after attribute `f` that its branch does not pass over. */
  function Last(values: seq<RegistryValue>, f: Field): Option<RegistryValue> {
    LastNamed(values, NameOf(f), SkipOf(f))
  }

  /** The language code as the raw text it is stored as. */
  function RawOf(o: Option<RegistryValue>): Option<LanguageCode> {
    match TextOf(o)
    case Some(t) => Some(Raw(t))
    case None => None
  }

  /** Each attribute holds what the LAST value of its name holds, None if no value has that name;
      "7" and "Files" values without data are passed over. */
  function Reference(values: seq<RegistryValue>): ProgramFields {
    ProgramFields(
      name := TextOf(Last(values, Name)),
      version := TextOf(Last(values, Version)),
      publisher := TextOf(Last(values, Publisher)),
      languageCode := RawOf(Last(values, Language)),
      entryType := TextOf(Last(values, EntryType)),
      uninstallKey := LinesOf(Last(values, UninstallKey)),
      filePaths := LinesOf(Last(values, FilePaths)),
      productCode := TextOf(Last(values, ProductCode)),
      packageCode := TextOf(Last(values, PackageCode)),
      msiProductCode := LinesOf(Last(values, MsiProductCode)),
      msiPackageCode := LinesOf(Last(values, MsiPackageCode)),
      files := LinesOf(Last(values, Files)),
      osAtInstall := None)
  }

  /** Value "a" as an integer, 0 when the key has none. */
  function InstallDateOf(values: seq<RegistryValue>): int {
    IntegerOr(Last(values, InstallDate), 0)
  }

  /** A value is accepted when it carries the kind of data its attribute's conversion takes. */
  predicate Accepts(v: RegistryValue) {
    match FieldNamed(v.name)
    case None => true
    case Some(f) =>
      if f == InstallDate then v.data.Int?
      else if GuardsNone(f) then !v.data.Int?
      else if f in {FilePaths, MsiProductCode, MsiPackageCode} then v.data.Str? || v.data.StrList?
      else v.data.Str?
  }

  /** Whether `v` is a value attribute `f` takes. */
  predicate Takes(v: RegistryValue, f: Field) {
    FieldNamed(v.name) == Some(f) && !(GuardsNone(f) && v.data.NoData?)
  }

  /** Appending a value changes the last value of the attribute that takes it, and no other. */
  lemma LastOneMore(front: seq<RegistryValue>, v: RegistryValue)
    ensures forall g :: Last(front + [v], g) == if Takes(v, g) then Some(v) else Last(front, g)
  {
    LastNamedOneMore(front, v);
    forall g ensures Hits(v, NameOf(g), SkipOf(g)) <==> Takes(v, g) {
      FieldTable(v.name, g);
    }
  }

  /** The record with attribute `f` read from `v` alone. */
  function Put(r: ProgramFields, f: Field, v: RegistryValue): ProgramFields {
    var o := Some(v);
    match f
    case InstallDate => r
    case Name => r.(name := TextOf(o))
    case Version => r.(version := TextOf(o))
    case Publisher => r.(publisher := TextOf(o))
    case Language => r.(languageCode := RawOf(o))
    case EntryType => r.(entryType := TextOf(o))
    case UninstallKey => r.(uninstallKey := LinesOf(o))
    case FilePaths => r.(filePaths := LinesOf(o))
    case ProductCode => r.(productCode := TextOf(o))
    case PackageCode => r.(packageCode := TextOf(o))
    case MsiProductCode => r.(msiProductCode := LinesOf(o))
    case MsiPackageCode => r.(msiPackageCode := LinesOf(o))
    case Files => r.(files := LinesOf(o))
  }

  /** A value of a known name replaces its own attribute in the reference record, unless passed over. */
  lemma ReferenceOneMore(front: seq<RegistryValue>, v: RegistryValue, f: Field)
    requires FieldNamed(v.name) == Some(f)
    ensures Reference(front + [v]) == if Takes(v, f) then Put(Reference(front), f, v) else Reference(front)
  {
    LastOneMore(front, v);
    if Takes(v, f) {
      assert forall g :: Takes(v, g) <==> g == f;
      match f
      case InstallDate =>
      case Name =>
      case Version =>
      case Publisher =>
      case Language =>
      case EntryType =>
      case UninstallKey =>
      case FilePaths =>
      case ProductCode =>
      case PackageCode =>
      case MsiProductCode =>
      case MsiPackageCode =>
      case Files =>
    } else {
      assert forall g :: !Takes(v, g);
    }
  }

  /** A step that does not raise stores the value into its own attribute, unless it passes it over. */
  lemma StepPuts(s: State, v: RegistryValue, f: Field)
    requires FieldNamed(v.name) == Some(f) && Step(s, v).Success?
    ensures Step(s, v).value.fields == if Takes(v, f) then Put(s.fields, f, v) else s.fields
    ensures Step(s, v).value.acc == if f == InstallDate then IntegerOr(Some(v), 0) else s.acc
  {
  }

  lemma StepReadsLastValue(front: seq<RegistryValue>, v: RegistryValue)
    requires Step(ScanState(Reference(front), InstallDateOf(front)), v).Success?
    ensures Step(ScanState(Reference(front), InstallDateOf(front)), v).value ==
              ScanState(Reference(front + [v]), InstallDateOf(front + [v]))
  {
    match FieldNamed(v.name)
    case None =>
      LastOneMore(front, v);
      assert Reference(front + [v]) == Reference(front);
    case Some(f) =>
      LastOneMore(front, v);
      ReferenceOneMore(front, v, f);
      StepPuts(ScanState(Reference(front), InstallDateOf(front)), v, f);
  }

  lemma ScanReadsLastValues(values: seq<RegistryValue>)
    requires Scan(Step, Start, values).Success?
    ensures Scan(Step, Start, values).value == ScanState(Reference(values), InstallDateOf(values))
  {
    var track := vs => ScanState(Reference(vs), InstallDateOf(vs));
    forall front, v | Step(track(front), v).Success?
      ensures Step(track(front), v).value == track(front + [v])
    {
      StepReadsLastValue(front, v);
    }
    ScanFollows(Step, track, values);
  }

  /** The record is the last value of each name (the OS version is never set); the one event
      is a POSIX Installation at "a", 0 when absent. */
  lemma DecodeReadsLastValues(values: seq<RegistryValue>)
    requires Decode(values).Success?
    ensures Decode(values).value.record == Reference(values)
    ensures Decode(values).value.record.osAtInstall.None?
    ensures Decode(values).value.stamps == [Stamp(Posix(InstallDateOf(values)), Installation)]
  {
    ScanReadsLastValues(values);
  }

  /** The pass raises exactly when some value of a known name holds data its conversion refuses. */
  lemma DecodeSucceedsIffAccepted(values: seq<RegistryValue>)
    ensures Decode(values).Success? <==> forall i :: 0 <= i < |values| ==> Accepts(values[i])
  {
    ScanSucceedsIffAllAccepted(Step, Start, values, Accepts);
  }

  /** A value whose name is not in the table can be removed without changing anything. */
  lemma UnknownNameIgnored(before: seq<RegistryValue>, v: RegistryValue, after: seq<RegistryValue>)
    requires v.name !in KnownNames
    ensures Decode(before + [v] + after) == Decode(before + after)
  {
    FieldTable(v.name, InstallDate);
    ScanSkipsIdle(Step, Start, before, v, after);
  }

  /** A "7" or "Files" value without data can be removed without changing anything. */
  lemma EmptyGuardedValueIgnored(before: seq<RegistryValue>, v: RegistryValue, after: seq<RegistryValue>)
    requires v.name == "7" || v.name == "Files"
    requires v.data.NoData?
    ensures Decode(before + [v] + after) == Decode(before + after)
  {
    FieldTable(v.name, UninstallKey);
    FieldTable(v.name, Files);
    ScanSkipsIdle(Step, Start, before, v, after);
  }

  /** A list of file paths without embedded newlines is recovered by splitting the attribute. */
  lemma FilePathsSplitBack(values: seq<RegistryValue>, items: seq<string>)
    requires Decode(values).Success?
    requires Last(values, FilePaths) == Some(RegistryValue("d", StrList(items)))
    requires items != [] && NoNewlines(items)
    ensures Decode(values).value.record.filePaths.Some?
    ensures SplitLines(Decode(values).value.record.filePaths.value) == items
  {
    DecodeReadsLastValues(values);
    SplitJoinedLines(items);
  }

  /** A key none of whose value names is in the table yields a record with every attribute None. */
  lemma NoKnownNameLeavesRecordEmpty(values: seq<RegistryValue>)
    requires forall i :: 0 <= i < |values| ==> values[i].name !in KnownNames
    ensures Decode(values) == Success(Decoded(NoProgramFields, [Stamp(Posix(0), Installation)]))
  {
    forall i | 0 <= i < |values| ensures Accepts(values[i]) {
      FieldTable(values[i].name, InstallDate);
    }
    DecodeSucceedsIffAccepted(values);
    DecodeReadsLastValues(values);
    forall g ensures Last(values, g) == None {
      LastNamedIsLast(values, NameOf(g), SkipOf(g));
      FieldTable(NameOf(g), g);
    }
  }
}
