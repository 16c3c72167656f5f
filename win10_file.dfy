/**
 * `Amcache10Parser._ProcessAMCacheWin10FileKey`: one pass over the values of a
 * `\Root\InventoryApplicationFile` key, then a Modification event at the key's
 * last-written time and, when "LinkDate" gave a nonzero time, a POSIX Creation event.
 *
 * `parseDate` stands for the date conversion of "LinkDate" (see `Registry.DateOf`).
 */
module Amcache10File {
  import opened Python
  import opened Events
  import opened Registry
  import opened Scanning

  /** The attributes a value of an `\Root\InventoryApplicationFile` key can set. */
  datatype Field = LinkDate | FullPath | Sha1 | ProductName | CompanyName | FileVersion | Language | FileSize | ProgramId

  /** The value name of each attribute. */
  function NameOf(f: Field): string {
    match f
    case LinkDate => "LinkDate"
    case FullPath => "LowerCaseLongPath"
    case Sha1 => "FileId"
    case ProductName => "ProductName"
    case CompanyName => "Publisher"
    case FileVersion => "Version"
    case Language => "Language"
    case FileSize => "Size"
    case ProgramId => "ProgramId"
  }

  const KnownNames := {"LinkDate", "LowerCaseLongPath", "FileId", "ProductName", "Publisher", "Version",
                       "Language", "Size", "ProgramId"}

  /** The if/elif chain: the attribute a value name selects, checked in the chain's order. */
  function FieldNamed(name: string): Option<Field> {
    if name == NameOf(LinkDate) then Some(LinkDate)
    else if name == NameOf(FullPath) then Some(FullPath)
    else if name == NameOf(Sha1) then Some(Sha1)
    else if name == NameOf(ProductName) then Some(ProductName)
    else if name == NameOf(CompanyName) then Some(CompanyName)
    else if name == NameOf(FileVersion) then Some(FileVersion)
    else if name == NameOf(Language) then Some(Language)
    else if name == NameOf(FileSize) then Some(FileSize)
    else if name == NameOf(ProgramId) then Some(ProgramId)
    else None
  }

  /** The chain selects an attribute exactly for its own name, and no name selects two. */
  lemma FieldTable(name: string, f: Field)
    ensures FieldNamed(name) == Some(f) <==> name == NameOf(f)
    ensures FieldNamed(name).Some? <==> name in KnownNames
  {
  }

  /** The event data and `linkdateint` (None until a non-empty "LinkDate" is read). */
  type State = ScanState<FileFields, Option<int>>

  const Start: State := ScanState(NoFileFields, None)

  /** One branch of the chain: convert the data and store it, or raise. */
  function Store(parseDate: string -> Option<int>, s: State, f: Field, p: Payload): Result<State> {
    var r := s.fields;
    match f
    case LinkDate =>
      var d :- DateOf(parseDate, p);
      Success(if d.Some? then s.(acc := d) else s)
    case FullPath => var t :- FormatStr(p); Success(s.(fields := r.(fullPath := Some(t))))
    case Sha1 => var h :- Sha1Of(p); Success(s.(fields := r.(sha1 := Some(h))))
    case ProductName => var t :- FormatStr(p); Success(s.(fields := r.(productName := Some(t))))
    case CompanyName => var t :- FormatStr(p); Success(s.(fields := r.(companyName := Some(t))))
    case FileVersion => var t :- FormatStr(p); Success(s.(fields := r.(fileVersion := Some(t))))
    case Language => var n :- IntOrHex(p); Success(s.(fields := r.(languageCode := Some(n))))
    case FileSize => var n :- IntOrHex(p); Success(s.(fields := r.(fileSize := Some(n))))
    case ProgramId => var t :- FormatStr(p); Success(s.(fields := r.(programId := Some(t))))
  }

  /** One turn of the loop; a name outside the chain changes nothing. */
  function Step(parseDate: string -> Option<int>, s: State, v: RegistryValue): Result<State> {
    match FieldNamed(v.name)
    case None => Success(s)
    case Some(f) => Store(parseDate, s, f, v.data)
  }

  /** `Step` with the date conversion fixed, as the loop runs it. */
  function Stepper(parseDate: string -> Option<int>): (State, RegistryValue) -> Result<State> {
    (s, v) => Step(parseDate, s, v)
  }

  /** The events emitted after the loop, in order. */
  function Stamps(lastWritten: int, s: State): seq<Stamp> {
    [Stamp(KeyLastWritten(lastWritten), Modification)]
    + (if Truthy(s.acc) then [Stamp(Posix(s.acc.value), Creation)] else [])
  }

  function Decode(parseDate: string -> Option<int>, key: RegistryKey): Result<Decoded<FileFields>> {
    var s :- Scan(Stepper(parseDate), Start, key.values);
    Success(Decoded(s.fields, Stamps(key.lastWritten, s)))
  }

  /** What the sink receives from the key, or the exception that reaches the caller. */
  function Extract(parseDate: string -> Option<int>, key: RegistryKey): Result<seq<Emission>> {
    var d :- Decode(parseDate, key);
    Success(Attach(FileData(d.record), d.stamps))
  }

  // ---------------------------------------------------------------------------
  // The decoder as the source writes it
  // ---------------------------------------------------------------------------

  /** One turn of the loop: the branch of the chain the value's name selects. */
  method StoreValue(parseDate: string -> Option<int>, data: AmcacheEventData, linkDate: Option<int>, value: RegistryValue)
    returns (linkDate': Option<int>, failure: Option<PyError>)
    modifies data
    ensures Step(parseDate, ScanState(old(data.Fields()), linkDate), value) ==
              if failure.None? then Success(ScanState(data.Fields(), linkDate')) else Failure(failure.value)
  {
    linkDate', failure := linkDate, None;
    match FieldNamed(value.name) {
      case None =>
      case Some(LinkDate) =>
        var t := FormatStr(value.data);
        if t.Failure? {
          failure := Some(t.error);
        } else if t.value != "" {
          var n := parseDate(t.value);
          if n.Some? { linkDate' := n; } else { failure := Some(ValueError); }
        }
      case Some(FullPath) =>
        var t := FormatStr(value.data);
        if t.Success? { data.fullPath := Some(t.value); } else { failure := Some(t.error); }
      case Some(Sha1) =>
        var h := Sha1Of(value.data);
        if h.Success? { data.sha1 := Some(h.value); } else { failure := Some(h.error); }
      case Some(ProductName) =>
        var t := FormatStr(value.data);
        if t.Success? { data.productName := Some(t.value); } else { failure := Some(t.error); }
      case Some(CompanyName) =>
        var t := FormatStr(value.data);
        if t.Success? { data.companyName := Some(t.value); } else { failure := Some(t.error); }
      case Some(FileVersion) =>
        var t := FormatStr(value.data);
        if t.Success? { data.fileVersion := Some(t.value); } else { failure := Some(t.error); }
      case Some(Language) =>
        var n := IntOrHex(value.data);
        if n.Success? { data.languageCode := Some(n.value); } else { failure := Some(n.error); }
      case Some(FileSize) =>
        var n := IntOrHex(value.data);
        if n.Success? { data.fileSize := Some(n.value); } else { failure := Some(n.error); }
      case Some(ProgramId) =>
        var t := FormatStr(value.data);
        if t.Success? { data.programId := Some(t.value); } else { failure := Some(t.error); }
    }
  }

  /** `_ProcessAMCacheWin10FileKey`. */
  method ProcessKey(parseDate: string -> Option<int>, key: RegistryKey, sink: EventSink) returns (outcome: Outcome)
    modifies sink
    ensures outcome == OutcomeOf(Extract(parseDate, key))
    ensures sink.emitted == old(sink.emitted) + Extract(parseDate, key).GetOr([])
  {
    var datetime := key.lastWritten;
    var data := new AmcacheEventData();
    var linkDate: Option<int> := None;
    for i := 0 to |key.values|
      modifies data
      invariant Scan(Stepper(parseDate), Start, key.values[..i]) == Success(ScanState(data.Fields(), linkDate))
    {
      ScanOneMore(Stepper(parseDate), Start, key.values, i);
      var failure;
      linkDate, failure := StoreValue(parseDate, data, linkDate, key.values[i]);
      if failure.Some? {
        ScanStopsAtFailure(Stepper(parseDate), Start, key.values, i + 1);
        return Fail(failure.value);
      }
    }
    assert key.values[..|key.values|] == key.values;
    var record := FileData(data.Fields());
    sink.Produce(record, Stamp(KeyLastWritten(datetime), Modification));
    if Truthy(linkDate) {
      sink.Produce(record, Stamp(Posix(linkDate.value), Creation));
    }
    return Pass;
  }

  // ---------------------------------------------------------------------------
  // What the decoder computes, stated from the values
  // ---------------------------------------------------------------------------

  /** Which values of its name an attribute passes over: an empty "LinkDate" text. */
  function SkipOf(f: Field): Skip {
    if f == LinkDate then IfEmptyText else Never
  }

  /** The last value named after attribute `f` that its branch does not pass over. */
  function Last(values: seq<RegistryValue>, f: Field): Option<RegistryValue> {
    LastNamed(values, NameOf(f), SkipOf(f))
  }

  /** An integer kept as it is, or text read as a base-16 numeral. */
  function HexOf(o: Option<RegistryValue>): Option<int> {
    if o.None? then None
    else match o.value.data
      case Int(n) => Some(n)
      case Str(text) => ParseInt(text, 16)
      case _ => None
  }

  /** Each attribute holds what the LAST value of its name holds, None if no value has that name. */
  function Reference(values: seq<RegistryValue>): FileFields {
    FileFields(
      fullPath := TextOf(Last(values, FullPath)),
      sha1 := HashOf(Last(values, Sha1)),
      productName := TextOf(Last(values, ProductName)),
      companyName := TextOf(Last(values, CompanyName)),
      fileVersion := TextOf(Last(values, FileVersion)),
      languageCode := HexOf(Last(values, Language)),
      fileSize := HexOf(Last(values, FileSize)),
      fileDescription := None,
      linkerTs := None,
      lastModifiedTs := None,
      createdTs := None,
      programId := TextOf(Last(values, ProgramId)))
  }

  /** The date read from the last non-empty "LinkDate", None when there is none. */
  function LinkDateOf(parseDate: string -> Option<int>, values: seq<RegistryValue>): Option<int> {
    var o := Last(values, LinkDate);
    if o.Some? && o.value.data.Str? then parseDate(o.value.data.text) else None
  }

  /** A value is accepted when it carries the kind of data its attribute's conversion takes. */
  predicate Accepts(parseDate: string -> Option<int>, v: RegistryValue) {
    match FieldNamed(v.name)
    case None => true
    case Some(f) =>
      if f == LinkDate then v.data.Str? && (v.data.text == "" || parseDate(v.data.text).Some?)
      else if f == Language || f == FileSize then v.data.Int? || (v.data.Str? && ParseInt(v.data.text, 16).Some?)
      else v.data.Str?
  }

  /** Whether `v` is a value attribute `f` takes. */
  predicate Takes(v: RegistryValue, f: Field) {
    FieldNamed(v.name) == Some(f) && !(f == LinkDate && v.data == Str(""))
  }

  /** Appending a value changes the last value of the attribute that takes it, and no other. */
  lemma LastOneMore(front: seq<RegistryValue>, v: RegistryValue)
    ensures forall g :: Last(front + [v], g) == if Takes(v, g) then Some(v) else Last(front, g)
  {
    LastNamedOneMore(front, v);
    forall g ensures Hits(v, NameOf(g), SkipOf(g)) <==> Takes(v, g) {
      FieldTable(v.name, g);
    }
  }

  /** The record with attribute `f` read from `v` alone. */
  function Put(r: FileFields, f: Field, v: RegistryValue): FileFields {
    var o := Some(v);
    match f
    case LinkDate => r
    case FullPath => r.(fullPath := TextOf(o))
    case Sha1 => r.(sha1 := HashOf(o))
    case ProductName => r.(productName := TextOf(o))
    case CompanyName => r.(companyName := TextOf(o))
    case FileVersion => r.(fileVersion := TextOf(o))
    case Language => r.(languageCode := HexOf(o))
    case FileSize => r.(fileSize := HexOf(o))
    case ProgramId => r.(programId := TextOf(o))
  }

  /** A value of a known name replaces its own attribute in the reference record, unless passed over. */
  lemma ReferenceOneMore(front: seq<RegistryValue>, v: RegistryValue, f: Field)
    requires FieldNamed(v.name) == Some(f)
    ensures Reference(front + [v]) == if Takes(v, f) then Put(Reference(front), f, v) else Reference(front)
  {
    LastOneMore(front, v);
    if Takes(v, f) {
      assert forall g :: Takes(v, g) <==> g == f;
      match f
      case LinkDate =>
      case FullPath =>
      case Sha1 =>
      case ProductName =>
      case CompanyName =>
      case FileVersion =>
      case Language =>
      case FileSize =>
      case ProgramId =>
    } else {
      assert forall g :: !Takes(v, g);
    }
  }

  /** A step that does not raise stores the value into its own attribute, unless it passes it over. */
  lemma StepPuts(parseDate: string -> Option<int>, s: State, v: RegistryValue, f: Field)
    requires FieldNamed(v.name) == Some(f) && Step(parseDate, s, v).Success?
    ensures Step(parseDate, s, v).value.fields == if Takes(v, f) then Put(s.fields, f, v) else s.fields
    ensures Step(parseDate, s, v).value.acc ==
              if Takes(v, f) && f == LinkDate then parseDate(v.data.text) else s.acc
  {
  }

  /** Appending a value changes the link date only when it is a "LinkDate" value the branch reads. */
  lemma LinkDateOneMore(parseDate: string -> Option<int>, front: seq<RegistryValue>, v: RegistryValue)
    ensures LinkDateOf(parseDate, front + [v]) ==
              if Takes(v, LinkDate) then (if v.data.Str? then parseDate(v.data.text) else None)
              else LinkDateOf(parseDate, front)
  {
    LastOneMore(front, v);
  }

  lemma StepReadsLastValue(parseDate: string -> Option<int>, front: seq<RegistryValue>, v: RegistryValue)
    requires Step(parseDate, ScanState(Reference(front), LinkDateOf(parseDate, front)), v).Success?
    ensures Step(parseDate, ScanState(Reference(front), LinkDateOf(parseDate, front)), v).value ==
              ScanState(Reference(front + [v]), LinkDateOf(parseDate, front + [v]))
  {
    match FieldNamed(v.name)
    case None =>
      LastOneMore(front, v);
      assert Reference(front + [v]) == Reference(front);
    case Some(f) =>
      LastOneMore(front, v);
      ReferenceOneMore(front, v, f);
      LinkDateOneMore(parseDate, front, v);
      StepPuts(parseDate, ScanState(Reference(front), LinkDateOf(parseDate, front)), v, f);
  }

  lemma ScanReadsLastValues(parseDate: string -> Option<int>, values: seq<RegistryValue>)
    requires Scan(Stepper(parseDate), Start, values).Success?
    ensures Scan(Stepper(parseDate), Start, values).value ==
              ScanState(Reference(values), LinkDateOf(parseDate, values))
  {
    var track := vs => ScanState(Reference(vs), LinkDateOf(parseDate, vs));
    forall front, v | Step(parseDate, track(front), v).Success?
      ensures Step(parseDate, track(front), v).value == track(front + [v])
    {
      StepReadsLastValue(parseDate, front, v);
    }
    ScanFollows(Stepper(parseDate), track, values);
  }

  /** The record is the last value of each name; the events are a Modification at the key's
      last-written time and, when the last non-empty "LinkDate" gave a nonzero time, a POSIX Creation. */
  lemma DecodeReadsLastValues(parseDate: string -> Option<int>, key: RegistryKey)
    requires Decode(parseDate, key).Success?
    ensures Decode(parseDate, key).value.record == Reference(key.values)
    ensures var link := LinkDateOf(parseDate, key.values);
            Decode(parseDate, key).value.stamps ==
              [Stamp(KeyLastWritten(key.lastWritten), Modification)]
              + (if Truthy(link) then [Stamp(Posix(link.value), Creation)] else [])
  {
    ScanReadsLastValues(parseDate, key.values);
  }

  /** One or two events; the first is always the key's own Modification, and a link date of 0 adds none. */
  lemma EventCount(parseDate: string -> Option<int>, key: RegistryKey)
    requires Decode(parseDate, key).Success?
    ensures 1 <= |Decode(parseDate, key).value.stamps| <= 2
    ensures Decode(parseDate, key).value.stamps[0] == Stamp(KeyLastWritten(key.lastWritten), Modification)
    ensures |Decode(parseDate, key).value.stamps| == 2 <==> Truthy(LinkDateOf(parseDate, key.values))
  {
    DecodeReadsLastValues(parseDate, key);
  }

  /** The pass raises exactly when some value of a known name holds data its conversion refuses. */
  lemma DecodeSucceedsIffAccepted(parseDate: string -> Option<int>, key: RegistryKey)
    ensures Decode(parseDate, key).Success? <==> forall i :: 0 <= i < |key.values| ==> Accepts(parseDate, key.values[i])
  {
    ScanSucceedsIffAllAccepted(Stepper(parseDate), Start, key.values, v => Accepts(parseDate, v));
  }

  /** A value whose name is not in the table can be removed without changing anything. */
  lemma UnknownNameIgnored(parseDate: string -> Option<int>, path: string, lastWritten: int,
                           before: seq<RegistryValue>, v: RegistryValue, after: seq<RegistryValue>)
    requires v.name !in KnownNames
    ensures Decode(parseDate, RegistryKey(path, lastWritten, before + [v] + after)) ==
            Decode(parseDate, RegistryKey(path, lastWritten, before + after))
  {
    FieldTable(v.name, LinkDate);
    ScanSkipsIdle(Stepper(parseDate), Start, before, v, after);
  }

  /** An empty "LinkDate" text can be removed without changing anything. */
  lemma EmptyLinkDateIgnored(parseDate: string -> Option<int>, path: string, lastWritten: int,
                             before: seq<RegistryValue>, after: seq<RegistryValue>)
    ensures Decode(parseDate, RegistryKey(path, lastWritten, before + [RegistryValue("LinkDate", Str(""))] + after)) ==
            Decode(parseDate, RegistryKey(path, lastWritten, before + after))
  {
    ScanSkipsIdle(Stepper(parseDate), Start, before, RegistryValue("LinkDate", Str("")), after);
  }

  /** A key none of whose value names is in the table yields a record with every attribute None. */
  lemma NoKnownNameLeavesRecordEmpty(parseDate: string -> Option<int>, key: RegistryKey)
    requires forall i :: 0 <= i < |key.values| ==> key.values[i].name !in KnownNames
    ensures Decode(parseDate, key) == Success(Decoded(NoFileFields, [Stamp(KeyLastWritten(key.lastWritten), Modification)]))
  {
    var values := key.values;
    forall i | 0 <= i < |values| ensures Accepts(parseDate, values[i]) {
      FieldTable(values[i].name, LinkDate);
    }
    DecodeSucceedsIffAccepted(parseDate, key);
    DecodeReadsLastValues(parseDate, key);
    forall g ensures Last(values, g) == None {
      LastNamedIsLast(values, NameOf(g), SkipOf(g));
      FieldTable(NameOf(g), g);
    }
    assert Decode(parseDate, key).value.stamps == [Stamp(KeyLastWritten(key.lastWritten), Modification)];
  }
}
