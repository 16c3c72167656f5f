/**
 * What the Amcache plugins produce: the two event-data records, the time
 * values they attach to them, and the sink that receives (record, time) pairs.
 */
module Events {
  import opened Python

  /** The time description an event carries. */
  datatype Meaning = Modification | Creation | Installation | Change

  /** A time value, tagged with how it is to be read: a FILETIME count, a POSIX
      count of seconds, or the key's own last-written time passed through as is. */
  datatype Timestamp = Filetime(ticks: int) | Posix(seconds: int) | KeyLastWritten(written: int)

  datatype Stamp = Stamp(time: Timestamp, meaning: Meaning)

  /** The program language code: an integer, or the raw text it was stored as. */
  datatype LanguageCode = Code(code: int) | Raw(text: string)

  /** The attributes of `AmcacheEventData`; None where a value never set them. */
  datatype FileFields = FileFields(
    fullPath: Option<string>,
    sha1: Option<string>,
    productName: Option<string>,
    companyName: Option<string>,
    fileVersion: Option<string>,
    languageCode: Option<int>,
    fileSize: Option<int>,
    fileDescription: Option<string>,
    linkerTs: Option<int>,
    lastModifiedTs: Option<int>,
    createdTs: Option<int>,
    programId: Option<string>)

  const NoFileFields := FileFields(None, None, None, None, None, None, None, None, None, None, None, None)

  /** The attributes of `AmcacheProgramEventData`; None where a value never set them. */
  datatype ProgramFields = ProgramFields(
    name: Option<string>,
    version: Option<string>,
    publisher: Option<string>,
    languageCode: Option<LanguageCode>,
    entryType: Option<string>,
    uninstallKey: Option<string>,
    filePaths: Option<string>,
    productCode: Option<string>,
    packageCode: Option<string>,
    msiProductCode: Option<string>,
    msiPackageCode: Option<string>,
    files: Option<string>,
    osAtInstall: Option<string>)

  const NoProgramFields := ProgramFields(None, None, None, None, None, None, None, None, None, None, None, None, None)

  const FileDataType := "windows:registry:amcache"
  const ProgramDataType := "windows:registry:amcache:programs"

  /** The event data handed to the sink, as it stands when it is handed over. */
  datatype EventData = FileData(file: FileFields) | ProgramData(program: ProgramFields) {
    function DataType(): string {
      if FileData? then FileDataType else ProgramDataType
    }
  }

  /** One call of the sink: an event (time and meaning) with its event data. */
  datatype Emission = Emission(data: EventData, stamp: Stamp)

  /** What one decoder pass yields: the record and the times to emit, in order. */
  datatype Decoded<R> = Decoded(record: R, stamps: seq<Stamp>)

  /** How a plugin call ends, given what its decoder computed. */
  function OutcomeOf(r: Result<seq<Emission>>): Outcome {
    if r.Success? then Pass else Fail(r.error)
  }

  /** One emission per stamp, in order, all carrying the same event data. */
  function Attach(data: EventData, stamps: seq<Stamp>): (r: seq<Emission>)
    ensures |r| == |stamps|
    ensures forall i :: 0 <= i < |r| ==> r[i].data == data && r[i].stamp == stamps[i]
  {
    if stamps == [] then [] else Attach(data, stamps[..|stamps| - 1]) + [Emission(data, stamps[|stamps| - 1])]
  }

  /** One more event appends one more emission to what the sink already holds. */
  lemma AttachOneMore(before: seq<Emission>, data: EventData, stamps: seq<Stamp>, stamp: Stamp)
    ensures before + Attach(data, stamps) + [Emission(data, stamp)] == before + Attach(data, stamps + [stamp])
  {
    assert (stamps + [stamp])[..|stamps|] == stamps;
  }

  /** `AmcacheEventData`: every attribute starts as None and the decoder sets them one by one. */
  class AmcacheEventData {
    var fullPath: Option<string>
    var sha1: Option<string>
    var productName: Option<string>
    var companyName: Option<string>
    var fileVersion: Option<string>
    var languageCode: Option<int>
    var fileSize: Option<int>
    var fileDescription: Option<string>
    var linkerTs: Option<int>
    var lastModifiedTs: Option<int>
    var createdTs: Option<int>
    var programId: Option<string>

    function Fields(): FileFields
      reads this
    {
      FileFields(fullPath, sha1, productName, companyName, fileVersion, languageCode,
                 fileSize, fileDescription, linkerTs, lastModifiedTs, createdTs, programId)
    }

    constructor ()
      ensures Fields() == NoFileFields
    {
      fullPath, sha1, productName, companyName := None, None, None, None;
      fileVersion, languageCode, fileSize, fileDescription := None, None, None, None;
      linkerTs, lastModifiedTs, createdTs, programId := None, None, None, None;
    }
  }

  /** `AmcacheProgramEventData`: every attribute starts as None and the decoder sets them one by one. */
  class AmcacheProgramEventData {
    var name: Option<string>
    var version: Option<string>
    var publisher: Option<string>
    var languageCode: Option<LanguageCode>
    var entryType: Option<string>
    var uninstallKey: Option<string>
    var filePaths: Option<string>
    var productCode: Option<string>
    var packageCode: Option<string>
    var msiProductCode: Option<string>
    var msiPackageCode: Option<string>
    var files: Option<string>
    var osAtInstall: Option<string>

    function Fields(): ProgramFields
      reads this
    {
      ProgramFields(name, version, publisher, languageCode, entryType, uninstallKey, filePaths,
                    productCode, packageCode, msiProductCode, msiPackageCode, files, osAtInstall)
    }

    constructor ()
      ensures Fields() == NoProgramFields
    {
      name, version, publisher, languageCode := None, None, None, None;
      entryType, uninstallKey, filePaths, productCode := None, None, None, None;
      packageCode, msiProductCode, msiPackageCode, files, osAtInstall := None, None, None, None, None;
    }
  }

  /** The parser mediator, seen only through the events it is given. */
  class EventSink {
    var emitted: seq<Emission>

    constructor ()
      ensures emitted == []
    {
      emitted := [];
    }

    /** `ProduceEventWithEventData`. */
    method Produce(data: EventData, stamp: Stamp)
      modifies this
      ensures emitted == old(emitted) + [Emission(data, stamp)]
    {
      emitted := emitted + [Emission(data, stamp)];
    }
  }
}
