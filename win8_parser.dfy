/**
 * `Amcache8Parser.ExtractEvents`: a key without values is dropped; otherwise a
 * `\Root\File` key goes to the file decoder and a `\Root\Programs` key to the
 * program decoder, and any other key yields nothing.
 */
module Amcache8Parser {
  import opened Python
  import opened Events
  import opened Registry
  import Amcache8File
  import Amcache8Program

  const FileKeyPrefix := "\\Root\\File"
  const ProgramKeyPrefix := "\\Root\\Programs"

  /** The decoder the key is handed to, if any. */
  function RouteOf(key: RegistryKey): (r: Route)
    ensures |key.values| == 0 ==> r == Skip
    ensures r == FileKey <==> |key.values| > 0 && StartsWith(key.path, FileKeyPrefix)
    ensures r == ProgramKey <==> |key.values| > 0 && StartsWith(key.path, ProgramKeyPrefix)
  {
    PrefixesDisjoint(key.path);
    if |key.values| == 0 then Skip
    else if StartsWith(key.path, FileKeyPrefix) then FileKey
    else if StartsWith(key.path, ProgramKeyPrefix) then ProgramKey
    else Skip
  }

  /** No path starts with both prefixes, so the order of the two tests does not matter here. */
  lemma PrefixesDisjoint(path: string)
    ensures !(StartsWith(path, FileKeyPrefix) && StartsWith(path, ProgramKeyPrefix))
  {
    if StartsWith(path, FileKeyPrefix) {
      assert path[6] == path[..|FileKeyPrefix|][6] == 'F';
    }
  }

  /** What the sink receives for the key, or the exception that reaches the caller. */
  function Extract(key: RegistryKey): Result<seq<Emission>> {
    match RouteOf(key)
    case Skip => Success([])
    case FileKey => Amcache8File.Extract(key.values)
    case ProgramKey => Amcache8Program.Extract(key.values)
  }

  /** `ExtractEvents`. */
  method ExtractEvents(key: RegistryKey, sink: EventSink) returns (outcome: Outcome)
    modifies sink
    ensures outcome == OutcomeOf(Extract(key))
    ensures sink.emitted == old(sink.emitted) + Extract(key).GetOr([])
  {
    if |key.values| == 0 {
      return Pass;
    }
    if StartsWith(key.path, FileKeyPrefix) {
      outcome := Amcache8File.ProcessKey(key, sink);
      return;
    } else if StartsWith(key.path, ProgramKeyPrefix) {
      outcome := Amcache8Program.ProcessKey(key, sink);
      return;
    }
    return Pass;
  }

  /** A key with no values yields no events and no error. */
  lemma NoValuesNoEvents(key: RegistryKey)
    requires |key.values| == 0
    ensures Extract(key) == Success([])
  {
  }

  /** A key under neither prefix yields no events and no error, whatever its values. */
  lemma UnmatchedPathNoEvents(key: RegistryKey)
    requires !StartsWith(key.path, FileKeyPrefix) && !StartsWith(key.path, ProgramKeyPrefix)
    ensures Extract(key) == Success([])
  {
  }

  /** A `\Root\File` key yields between one and four events, all carrying the same file record,
      the first a FILETIME Modification at value "17". */
  lemma FileKeyEvents(key: RegistryKey)
    requires |key.values| > 0 && StartsWith(key.path, FileKeyPrefix)
    requires Extract(key).Success?
    ensures var e := Extract(key).value;
            && 1 <= |e| <= 4
            && e[0].stamp == Stamp(Filetime(Amcache8File.DatetimeOf(key.values)), Modification)
            && forall i :: 0 <= i < |e| ==>
                 e[i].data == FileData(Amcache8File.Reference(key.values)) && e[i].data.DataType() == FileDataType
  {
    Amcache8File.EventCount(key.values);
    Amcache8File.DecodeReadsLastValues(key.values);
  }

  /** A `\Root\Programs` key yields exactly one POSIX Installation event, at value "a". */
  lemma ProgramKeyEvents(key: RegistryKey)
    requires |key.values| > 0 && StartsWith(key.path, ProgramKeyPrefix)
    requires Extract(key).Success?
    ensures Extract(key).value ==
              [Emission(ProgramData(Amcache8Program.Reference(key.values)),
                        Stamp(Posix(Amcache8Program.InstallDateOf(key.values)), Installation))]
    ensures Extract(key).value[0].data.DataType() == ProgramDataType
  {
    Amcache8Program.DecodeReadsLastValues(key.values);
  }

  /** Only a key handed to a decoder can raise; what it then emits is nothing (`ExtractEvents`). */
  lemma FailureYieldsNothing(key: RegistryKey)
    requires Extract(key).Failure?
    ensures RouteOf(key) != Skip
  {
  }
}
