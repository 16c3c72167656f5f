/**
 * `Amcache10Parser._ProcessAMCacheWin10ProgramKey`: one pass over the values of a
 * `\Root\InventoryApplication` key, then an Installation event at the key's
 * last-written time and, when "InstallDate" gave a time, a POSIX Installation event.
 *
 * `parseDate` stands for the date conversion of "InstallDate" (see `Registry.DateOf`).
 */
module Amcache10Program {
  import opened Python
  import opened Events
  import opened Registry
  import opened Scanning

  /** The attributes a value of an `\Root\InventoryApplication` key can set. */
  datatype Field =
    | InstallDate | Name | Version | Publisher | Language | EntryType | UninstallKey
    | FilePaths | OsAtInstall | MsiProductCode | MsiPackageCode | Files

  /** The value name of each attribute. */
  function NameOf(f: Field): string {
    match f
    case InstallDate => "InstallDate"
    case Name => "Name"
    case Version => "Version"
    case Publisher => "Publisher"
    case Language => "Language"
    case EntryType => "Type"
    case UninstallKey => "RegistryKeyPath"
    case FilePaths => "ManifestPath"
    case OsAtInstall => "OSVersionAtInstallTime"
    case MsiProductCode => "MsiProductCode"
    case MsiPackageCode => "MsiPackageCode"
    case Files => "RootDirPath"
  }

  const KnownNames := {"InstallDate", "Name", "Version", "Publisher", "Language", "Type", "RegistryKeyPath",
                       "ManifestPath", "OSVersionAtInstallTime", "MsiProductCode", "MsiPackageCode", "RootDirPath"}

  /** The if/elif chain: the attribute a value name selects, checked in the chain's order. */
  function FieldNamed(name: string): Option<Field> {
    if name == NameOf(InstallDate) then Some(InstallDate)
    else if name == NameOf(Name) then Some(Name)
    else if name == NameOf(Version) then Some(Version)
    else if name == NameOf(Publisher) then Some(Publisher)
    else if name == NameOf(Language) then Some(Language)
    else if name == NameOf(EntryType) then Some(EntryType)
    else if name == NameOf(UninstallKey) then Some(UninstallKey)
    else if name == NameOf(FilePaths) then Some(FilePaths)
    else if name == NameOf(OsAtInstall) then Some(OsAtInstall)
    else if name == NameOf(MsiProductCode) then Some(MsiProductCode)
    else if name == NameOf(MsiPackageCode) then Some(MsiPackageCode)
    else if name == NameOf(Files) then Some(Files)
    else None
  }

  /** The chain selects an attribute exactly for its own name, and no name selects two. */
  lemma FieldTable(name: string, f: Field)
    ensures FieldNamed(name) == Some(f) <==> name == NameOf(f)
    ensures FieldNamed(name).Some? <==> name in KnownNames
  {
  }

  /** The event data and `installdateint` (None until a non-empty "InstallDate" is read). */
  type State = ScanState<ProgramFields, Option<int>>

  const Start: State := ScanState(NoProgramFields, None)

  /** One branch of the chain: convert the data and store it, or raise. */
  function Store(parseDate: string -> Option<int>, s: State, f: Field, p: Payload): Result<State> {
    var r := s.fields;
    match f
    case InstallDate =>
      var d :- DateOf(parseDate, p);
      Success(if d.Some? then s.(acc := d) else s)
    case Name => var t :- FormatStr(p); Success(s.(fields := r.(name := Some(t))))
    case Version => var t :- FormatStr(p); Success(s.(fields := r.(version := Some(t))))
    case Publisher => var t :- FormatStr(p); Success(s.(fields := r.(publisher := Some(t))))
    case Language => var c :- IntOrRaw(p); Success(s.(fields := r.(languageCode := Some(c))))
    case EntryType => var t :- FormatStr(p); Success(s.(fields := r.(entryType := Some(t))))
    case UninstallKey => var t :- FormatStr(p); Success(s.(fields := r.(uninstallKey := Some(t))))
    case FilePaths => var t :- FormatStr(p); Success(s.(fields := r.(filePaths := Some(t))))
    case OsAtInstall => var t :- FormatStr(p); Success(s.(fields := r.(osAtInstall := Some(t))))
    case MsiProductCode => var t :- FormatStr(p); Success(s.(fields := r.(msiProductCode := Some(t))))
    case MsiPackageCode => var t :- FormatStr(p); Success(s.(fields := r.(msiPackageCode := Some(t))))
    case Files => var t :- FormatStr(p); Success(s.(fields := r.(files := Some(t))))
  }

  /** One turn of the loop; a name outside the chain changes nothing. */
  function Step(parseDate: string -> Option<int>, s: State, v: RegistryValue): Result<State> {
    match FieldNamed(v.name)
    case None => Success(s)
    case Some(f) => Store(parseDate, s, f, v.data)
  }

  /** `Step` with the date conversion fixed, as the loop runs it. */
  function Stepper(parseDate: string -> Option<int>): (State, RegistryValue) -> Result<State> {
    (s, v) => Step(parseDate, s, v)
  }

  /** The events emitted after the loop, in order. */
  function Stamps(lastWritten: int, s: State): seq<Stamp> {
    [Stamp(KeyLastWritten(lastWritten), Installation)]
    + (if s.acc.Some? then [Stamp(Posix(s.acc.value), Installation)] else [])
  }

  function Decode(parseDate: string -> Option<int>, key: RegistryKey): Result<Decoded<ProgramFields>> {
    var s :- Scan(Stepper(parseDate), Start, key.values);
    Success(Decoded(s.fields, Stamps(key.lastWritten, s)))
  }

  /** What the sink receives from the key, or the exception that reaches the caller. */
  function Extract(parseDate: string -> Option<int>, key: RegistryKey): Result<seq<Emission>> {
    var d :- Decode(parseDate, key);
    Success(Attach(ProgramData(d.record), d.stamps))
  }

  // ---------------------------------------------------------------------------
  // The decoder as the source writes it
  // ---------------------------------------------------------------------------

  /** One turn of the loop: the branch of the chain the value's name selects. */
  method StoreValue(parseDate: string -> Option<int>, data: AmcacheProgramEventData, installDate: Option<int>,
                    value: RegistryValue)
    returns (installDate': Option<int>, failure: Option<PyError>)
    modifies data
    ensures Step(parseDate, ScanState(old(data.Fields()), installDate), value) ==
              if failure.None? then Success(ScanState(data.Fields(), installDate')) else Failure(failure.value)
  {
    installDate', failure := installDate, None;
    match FieldNamed(value.name) {
      case None =>
      case Some(InstallDate) =>
        var t := FormatStr(value.data);
        if t.Failure? {
          failure := Some(t.error);
        } else if t.value != "" {
          var n := parseDate(t.value);
          if n.Some? { installDate' := n; } else { failure := Some(ValueError); }
        }
      case Some(Name) =>
        var t := FormatStr(value.data);
        if t.Success? { data.name := Some(t.value); } else { failure := Some(t.error); }
      case Some(Version) =>
        var t := FormatStr(value.data);
        if t.Success? { data.version := Some(t.value); } else { failure := Some(t.error); }
      case Some(Publisher) =>
        var t := FormatStr(value.data);
        if t.Success? { data.publisher := Some(t.value); } else { failure := Some(t.error); }
      case Some(Language) =>
        var c := IntOrRaw(value.data);
        if c.Success? { data.languageCode := Some(c.value); } else { failure := Some(c.error); }
      case Some(EntryType) =>
        var t := FormatStr(value.data);
        if t.Success? { data.entryType := Some(t.value); } else { failure := Some(t.error); }
      case Some(UninstallKey) =>
        var t := FormatStr(value.data);
        if t.Success? { data.uninstallKey := Some(t.value); } else { failure := Some(t.error); }
      case Some(FilePaths) =>
        var t := FormatStr(value.data);
        if t.Success? { data.filePaths := Some(t.value); } else { failure := Some(t.error); }
      case Some(OsAtInstall) =>
        var t := FormatStr(value.data);
        if t.Success? { data.osAtInstall := Some(t.value); } else { failure := Some(t.error); }
      case Some(MsiProductCode) =>
        var t := FormatStr(value.data);
        if t.Success? { data.msiProductCode := Some(t.value); } else { failure := Some(t.error); }
      case Some(MsiPackageCode) =>
        var t := FormatStr(value.data);
        if t.Success? { data.msiPackageCode := Some(t.value); } else { failure := Some(t.error); }
      case Some(Files) =>
        var t := FormatStr(value.data);
        if t.Success? { data.files := Some(t.value); } else { failure := Some(t.error); }
    }
  }

  /** `_ProcessAMCacheWin10ProgramKey`. */
  method ProcessKey(parseDate: string -> Option<int>, key: RegistryKey, sink: EventSink) returns (outcome: Outcome)
    modifies sink
    ensures outcome == OutcomeOf(Extract(parseDate, key))
    ensures sink.emitted == old(sink.emitted) + Extract(parseDate, key).GetOr([])
  {
    var data := new AmcacheProgramEventData();
    var datetime := key.lastWritten;
    var installDate: Option<int> := None;
    for i := 0 to |key.values|
      modifies data
      invariant Scan(Stepper(parseDate), Start, key.values[..i]) == Success(ScanState(data.Fields(), installDate))
    {
      ScanOneMore(Stepper(parseDate), Start, key.values, i);
      var failure;
      installDate, failure := StoreValue(parseDate, data, installDate, key.values[i]);
      if failure.Some? {
        ScanStopsAtFailure(Stepper(parseDate), Start, key.values, i + 1);
        return Fail(failure.value);
      }
    }
    assert key.values[..|key.values|] == key.values;
    var record := ProgramData(data.Fields());
    sink.Produce(record, Stamp(KeyLastWritten(datetime), Installation));
    if installDate.Some? {
      sink.Produce(record, Stamp(Posix(installDate.value), Installation));
    }
    return Pass;
  }

  // ---------------------------------------------------------------------------
  // What the decoder computes, stated from the values
  // ---------------------------------------------------------------------------

  /** Which values of its name an attribute passes over: an empty "InstallDate" text. */
  function SkipOf(f: Field): Skip {
    if f == InstallDate then IfEmptyText else Never
  }

  /** The last value named after attribute `f` that its branch does not pass over. */
  function Last(values: seq<RegistryValue>, f: Field): Option<RegistryValue> {
    LastNamed(values, NameOf(f), SkipOf(f))
  }

  /** An integer kept as a code, or text kept as it is. */
  function CodeOf(o: Option<RegistryValue>): Option<LanguageCode> {
    if o.None? then None
    else match o.value.data
      case Int(n) => Some(Code(n))
      case Str(text) => Some(Raw(text))
      case _ => None
  }

  /** Each attribute holds what the LAST value of its name holds, None if no value has that name. */
  function Reference(values: seq<RegistryValue>): ProgramFields {
    ProgramFields(
      name := TextOf(Last(values, Name)),
      version := TextOf(Last(values, Version)),
      publisher := TextOf(Last(values, Publisher)),
      languageCode := CodeOf(Last(values, Language)),
      entryType := TextOf(Last(values, EntryType)),
      uninstallKey := TextOf(Last(values, UninstallKey)),
      filePaths := TextOf(Last(values, FilePaths)),
      productCode := None,
      packageCode := None,
      msiProductCode := TextOf(Last(values, MsiProductCode)),
      msiPackageCode := TextOf(Last(values, MsiPackageCode)),
      files := TextOf(Last(values, Files)),
      osAtInstall := TextOf(Last(values, OsAtInstall)))
  }

  /** The date read from the last non-empty "InstallDate", None when there is none. */
  function InstallDateOf(parseDate: string -> Option<int>, values: seq<RegistryValue>): Option<int> {
    var o := Last(values, InstallDate);
    if o.Some? && o.value.data.Str? then parseDate(o.value.data.text) else None
  }

  /** A value is accepted when it carries the kind of data its attribute's conversion takes. */
  predicate Accepts(parseDate: string -> Option<int>, v: RegistryValue) {
    match FieldNamed(v.name)
    case None => true
    case Some(f) =>
      if f == InstallDate then v.data.Str? && (v.data.text == "" || parseDate(v.data.text).Some?)
      else if f == Language then v.data.Int? || v.data.Str?
      else v.data.Str?
  }

  /** Whether `v` is a value attribute `f` takes. */
  predicate Takes(v: RegistryValue, f: Field) {
    FieldNamed(v.name) == Some(f) && !(f == InstallDate && v.data == Str(""))
  }

  /** Appending a value changes the last value of the attribute that takes it, and no other. */
  lemma LastOneMore(front: seq<RegistryValue>, v: RegistryValue)
    ensures forall g :: Last(front + [v], g) == if Takes(v, g) then Some(v) else Last(front, g)
  {
    LastNamedOneMore(front, v);
    forall g ensures Hits(v, NameOf(g), SkipOf(g)) <==> Takes(v, g) {
      FieldTable(v.name, g);
    }
  }

  /** The record with attribute `f` read from `v` alone. */
  function Put(r: ProgramFields, f: Field, v: RegistryValue): ProgramFields {
    var o := Some(v);
    match f
    case InstallDate => r
    case Name => r.(name := TextOf(o))
    case Version => r.(version := TextOf(o))
    case Publisher => r.(publisher := TextOf(o))
    case Language => r.(languageCode := CodeOf(o))
    case EntryType => r.(entryType := TextOf(o))
    case UninstallKey => r.(uninstallKey := TextOf(o))
    case FilePaths => r.(filePaths := TextOf(o))
    case OsAtInstall => r.(osAtInstall := TextOf(o))
    case MsiProductCode => r.(msiProductCode := TextOf(o))
    case MsiPackageCode => r.(msiPackageCode := TextOf(o))
    case Files => r.(files := TextOf(o))
  }

  /** A value of a known name replaces its own attribute in the reference record, unless passed over. */
  lemma ReferenceOneMore(front: seq<RegistryValue>, v: RegistryValue, f: Field)
    requires FieldNamed(v.name) == Some(f)
    ensures Reference(front + [v]) == if Takes(v, f) then Put(Reference(front), f, v) else Reference(front)
  {
    LastOneMore(front, v);
    if Takes(v, f) {
      assert forall g :: Takes(v, g) <==> g == f;
      match f
      case InstallDate =>
      case Name =>
      case Version =>
      case Publisher =>
      case Language =>
      case EntryType =>
      case UninstallKey =>
      case FilePaths =>
      case OsAtInstall =>
      case MsiProductCode =>
      case MsiPackageCode =>
      case Files =>
    } else {
      assert forall g :: !Takes(v, g);
    }
  }

  /** Appending a value changes the install date only when it is an "InstallDate" value the branch reads. */
  lemma InstallDateOneMore(parseDate: string -> Option<int>, front: seq<RegistryValue>, v: RegistryValue)
    ensures InstallDateOf(parseDate, front + [v]) ==
              if Takes(v, InstallDate) then (if v.data.Str? then parseDate(v.data.text) else None)
              else InstallDateOf(parseDate, front)
  {
    LastOneMore(front, v);
  }

  /** A step that does not raise stores the value into its own attribute, unless it passes it over. */
  lemma StepPuts(parseDate: string -> Option<int>, s: State, v: RegistryValue, f: Field)
    requires FieldNamed(v.name) == Some(f) && Step(parseDate, s, v).Success?
    ensures Step(parseDate, s, v).value.fields == if Takes(v, f) then Put(s.fields, f, v) else s.fields
    ensures Step(parseDate, s, v).value.acc ==
              if Takes(v, f) && f == InstallDate then parseDate(v.data.text) else s.acc
  {
  }

  lemma StepReadsLastValue(parseDate: string -> Option<int>, front: seq<RegistryValue>, v: RegistryValue)
    requires Step(parseDate, ScanState(Reference(front), InstallDateOf(parseDate, front)), v).Success?
    ensures Step(parseDate, ScanState(Reference(front), InstallDateOf(parseDate, front)), v).value ==
              ScanState(Reference(front + [v]), InstallDateOf(parseDate, front + [v]))
  {
    match FieldNamed(v.name)
    case None =>
      LastOneMore(front, v);
      assert Reference(front + [v]) == Reference(front);
    case Some(f) =>
      LastOneMore(front, v);
      ReferenceOneMore(front, v, f);
      InstallDateOneMore(parseDate, front, v);
      StepPuts(parseDate, ScanState(Reference(front), InstallDateOf(parseDate, front)), v, f);
  }

  lemma ScanReadsLastValues(parseDate: string -> Option<int>, values: seq<RegistryValue>)
    requires Scan(Stepper(parseDate), Start, values).Success?
    ensures Scan(Stepper(parseDate), Start, values).value ==
              ScanState(Reference(values), InstallDateOf(parseDate, values))
  {
    var track := vs => ScanState(Reference(vs), InstallDateOf(parseDate, vs));
    forall front, v | Step(parseDate, track(front), v).Success?
      ensures Step(parseDate, track(front), v).value == track(front + [v])
    {
      StepReadsLastValue(parseDate, front, v);
    }
    ScanFollows(Stepper(parseDate), track, values);
  }

  /** The record is the last value of each name (product and package codes are never set); the
      events are an Installation at the key's last-written time and, when the last non-empty
      "InstallDate" gave a time, a POSIX Installation at it. */
  lemma DecodeReadsLastValues(parseDate: string -> Option<int>, key: RegistryKey)
    requires Decode(parseDate, key).Success?
    ensures Decode(parseDate, key).value.record == Reference(key.values)
    ensures var install := InstallDateOf(parseDate, key.values);
            Decode(parseDate, key).value.stamps ==
              [Stamp(KeyLastWritten(key.lastWritten), Installation)]
              + (if install.Some? then [Stamp(Posix(install.value), Installation)] else [])
  {
    ScanReadsLastValues(parseDate, key.values);
  }

  /** One or two events; a date that parses to 0 still adds the second one. */
  lemma EventCount(parseDate: string -> Option<int>, key: RegistryKey)
    requires Decode(parseDate, key).Success?
    ensures 1 <= |Decode(parseDate, key).value.stamps| <= 2
    ensures Decode(parseDate, key).value.stamps[0] == Stamp(KeyLastWritten(key.lastWritten), Installation)
    ensures |Decode(parseDate, key).value.stamps| == 2 <==> InstallDateOf(parseDate, key.values).Some?
  {
    DecodeReadsLastValues(parseDate, key);
  }

  /** The pass raises exactly when some value of a known name holds data its conversion refuses;
      "Language" refuses only a list or no data. */
  lemma DecodeSucceedsIffAccepted(parseDate: string -> Option<int>, key: RegistryKey)
    ensures Decode(parseDate, key).Success? <==> forall i :: 0 <= i < |key.values| ==> Accepts(parseDate, key.values[i])
  {
    ScanSucceedsIffAllAccepted(Stepper(parseDate), Start, key.values, v => Accepts(parseDate, v));
  }

  /** A value whose name is not in the table can be removed without changing anything. */
  lemma UnknownNameIgnored(parseDate: string -> Option<int>, path: string, lastWritten: int,
                           before: seq<RegistryValue>, v: RegistryValue, after: seq<RegistryValue>)
    requires v.name !in KnownNames
    ensures Decode(parseDate, RegistryKey(path, lastWritten, before + [v] + after)) ==
            Decode(parseDate, RegistryKey(path, lastWritten, before + after))
  {
    FieldTable(v.name, InstallDate);
    ScanSkipsIdle(Stepper(parseDate), Start, before, v, after);
  }

  /** An empty "InstallDate" text can be removed without changing anything. */
  lemma EmptyInstallDateIgnored(parseDate: string -> Option<int>, path: string, lastWritten: int,
                                before: seq<RegistryValue>, after: seq<RegistryValue>)
    ensures Decode(parseDate, RegistryKey(path, lastWritten, before + [RegistryValue("InstallDate", Str(""))] + after)) ==
            Decode(parseDate, RegistryKey(path, lastWritten, before + after))
  {
    ScanSkipsIdle(Stepper(parseDate), Start, before, RegistryValue("InstallDate", Str("")), after);
  }

  /** A key none of whose value names is in the table yields a record with every attribute None. */
  lemma NoKnownNameLeavesRecordEmpty(parseDate: string -> Option<int>, key: RegistryKey)
    requires forall i :: 0 <= i < |key.values| ==> key.values[i].name !in KnownNames
    ensures Decode(parseDate, key) == Success(Decoded(NoProgramFields, [Stamp(KeyLastWritten(key.lastWritten), Installation)]))
  {
    var values := key.values;
    forall i | 0 <= i < |values| ensures Accepts(parseDate, values[i]) {
      FieldTable(values[i].name, InstallDate);
    }
    DecodeSucceedsIffAccepted(parseDate, key);
    DecodeReadsLastValues(parseDate, key);
    forall g ensures Last(values, g) == None {
      LastNamedIsLast(values, NameOf(g), SkipOf(g));
      FieldTable(NameOf(g), g);
    }
    assert Decode(parseDate, key).value.stamps == [Stamp(KeyLastWritten(key.lastWritten), Installation)];
  }
}
