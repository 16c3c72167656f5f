/**
 * `Amcache10Parser.ExtractEvents`: a key without values is dropped; otherwise an
 * `\Root\InventoryApplicationFile` key goes to the file decoder and, failing that,
 * an `\Root\InventoryApplication` key to the program decoder.  The file prefix is
 * checked first because the program prefix is a prefix of it.
 */
module Amcache10Parser {
  import opened Python
  import opened Events
  import opened Registry
  import Amcache10File
  import Amcache10Program

  const FileKeyPrefix := "\\Root\\InventoryApplicationFile"
  const ProgramKeyPrefix := "\\Root\\InventoryApplication"

  /** The decoder the key is handed to, if any. */
  function RouteOf(key: RegistryKey): (r: Route)
    ensures |key.values| == 0 ==> r == Skip
    ensures r == FileKey <==> |key.values| > 0 && StartsWith(key.path, FileKeyPrefix)
    ensures r == ProgramKey <==>
              |key.values| > 0 && StartsWith(key.path, ProgramKeyPrefix) && !StartsWith(key.path, FileKeyPrefix)
  {
    if |key.values| == 0 then Skip
    else if StartsWith(key.path, FileKeyPrefix) then FileKey
    else if StartsWith(key.path, ProgramKeyPrefix) then ProgramKey
    else Skip
  }

  /** Every path under the file prefix is also under the program prefix. */
  lemma FilePrefixExtendsProgramPrefix(path: string)
    requires StartsWith(path, FileKeyPrefix)
    ensures StartsWith(path, ProgramKeyPrefix)
  {
    assert path[..|ProgramKeyPrefix|] == path[..|FileKeyPrefix|][..|ProgramKeyPrefix|];
  }

  /** The route the two tests would give in the other order. */
  function ProgramFirstRouteOf(key: RegistryKey): Route {
    if |key.values| == 0 then Skip
    else if StartsWith(key.path, ProgramKeyPrefix) then ProgramKey
    else if StartsWith(key.path, FileKeyPrefix) then FileKey
    else Skip
  }

  /** Testing the program prefix first would hand every file key to the program decoder. */
  lemma OrderMatters(key: RegistryKey)
    requires |key.values| > 0 && StartsWith(key.path, FileKeyPrefix)
    ensures RouteOf(key) == FileKey
    ensures ProgramFirstRouteOf(key) == ProgramKey
  {
    FilePrefixExtendsProgramPrefix(key.path);
  }

  /** What the sink receives for the key, or the exception that reaches the caller. */
  function Extract(parseDate: string -> Option<int>, key: RegistryKey): Result<seq<Emission>> {
    match RouteOf(key)
    case Skip => Success([])
    case FileKey => Amcache10File.Extract(parseDate, key)
    case ProgramKey => Amcache10Program.Extract(parseDate, key)
  }

  /** `ExtractEvents`. */
  method ExtractEvents(parseDate: string -> Option<int>, key: RegistryKey, sink: EventSink) returns (outcome: Outcome)
    modifies sink
    ensures outcome == OutcomeOf(Extract(parseDate, key))
    ensures sink.emitted == old(sink.emitted) + Extract(parseDate, key).GetOr([])
  {
    if |key.values| == 0 {
      return Pass;
    }
    if StartsWith(key.path, FileKeyPrefix) {
      outcome := Amcache10File.ProcessKey(parseDate, key, sink);
      return;
    } else if StartsWith(key.path, ProgramKeyPrefix) {
      outcome := Amcache10Program.ProcessKey(parseDate, key, sink);
      return;
    }
    return Pass;
  }

  /** A key with no values yields no events and no error. */
  lemma NoValuesNoEvents(parseDate: string -> Option<int>, key: RegistryKey)
    requires |key.values| == 0
    ensures Extract(parseDate, key) == Success([])
  {
  }

  /** A key under neither prefix yields no events and no error, whatever its values. */
  lemma UnmatchedPathNoEvents(parseDate: string -> Option<int>, key: RegistryKey)
    requires !StartsWith(key.path, ProgramKeyPrefix)
    ensures Extract(parseDate, key) == Success([])
  {
    if StartsWith(key.path, FileKeyPrefix) {
      FilePrefixExtendsProgramPrefix(key.path);
    }
  }

  /** A file key never reaches the program decoder: it yields one or two events carrying the
      file record, the first a Modification at the key's last-written time. */
  lemma FileKeyEvents(parseDate: string -> Option<int>, key: RegistryKey)
    requires |key.values| > 0 && StartsWith(key.path, FileKeyPrefix)
    requires Extract(parseDate, key).Success?
    ensures RouteOf(key) != ProgramKey
    ensures var e := Extract(parseDate, key).value;
            && 1 <= |e| <= 2
            && e[0].stamp == Stamp(KeyLastWritten(key.lastWritten), Modification)
            && forall i :: 0 <= i < |e| ==>
                 e[i].data == FileData(Amcache10File.Reference(key.values)) && e[i].data.DataType() == FileDataType
  {
    Amcache10File.EventCount(parseDate, key);
    Amcache10File.DecodeReadsLastValues(parseDate, key);
  }

  /** A program key yields one or two Installation events carrying the program record. */
  lemma ProgramKeyEvents(parseDate: string -> Option<int>, key: RegistryKey)
    requires |key.values| > 0 && StartsWith(key.path, ProgramKeyPrefix) && !StartsWith(key.path, FileKeyPrefix)
    requires Extract(parseDate, key).Success?
    ensures var e := Extract(parseDate, key).value;
            && 1 <= |e| <= 2
            && e[0].stamp == Stamp(KeyLastWritten(key.lastWritten), Installation)
            && forall i :: 0 <= i < |e| ==>
                 && e[i].data == ProgramData(Amcache10Program.Reference(key.values))
                 && e[i].data.DataType() == ProgramDataType
                 && e[i].stamp.meaning == Installation
  {
    Amcache10Program.EventCount(parseDate, key);
    Amcache10Program.DecodeReadsLastValues(parseDate, key);
  }
}
