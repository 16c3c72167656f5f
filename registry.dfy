/**
 * The registry key the plugins receive, and the conversions they apply to one
 * value's data before storing it in an event-data attribute.
 */
module Registry {
  import opened Python
  import opened Events

  /** What `GetDataAsObject()` returns: an int, a str, a list of str, or None. */
  datatype Payload = Int(n: int) | Str(text: string) | StrList(items: seq<string>) | NoData

  datatype RegistryValue = RegistryValue(name: string, data: Payload)

  /** A key as the plugins see it: its path, its last-written time and its values in order. */
  datatype RegistryKey = RegistryKey(path: string, lastWritten: int, values: seq<RegistryValue>)

  /** Which decoder a plugin hands a key to. */
  datatype Route = FileKey | ProgramKey | Skip

  /** `path.startswith(prefix)`. */
  predicate StartsWith(path: string, prefix: string) {
    |prefix| <= |path| && path[..|prefix|] == prefix
  }

  /** A path under a longer prefix is under every prefix of that prefix. */
  lemma StartsWithTransitive(path: string, long: string, short: string)
    requires StartsWith(path, long) && StartsWith(long, short)
    ensures StartsWith(path, short)
  {
    assert path[..|short|] == path[..|long|][..|short|];
  }

  /** `'{:s}'.format(p)`: only a str formats with the `s` code. */
  function FormatStr(p: Payload): (r: Result<string>)
    ensures r.Success? <==> p.Str?
    ensures p.Str? ==> r.value == p.text
    ensures p.Int? ==> r == Failure(ValueError)
    ensures (p.StrList? || p.NoData?) ==> r == Failure(TypeError)
  {
    match p
    case Str(t) => Success(t)
    case Int(_) => Failure(ValueError)
    case _ => Failure(TypeError)
  }

  /** `'{:d}'.format(p)`: only an int formats with the `d` code. */
  function FormatInt(p: Payload): (r: Result<string>)
    ensures r.Success? <==> p.Int?
    ensures p.Int? ==> ParseInt(r.value, 10) == Some(p.n)
    ensures p.Str? ==> r == Failure(ValueError)
    ensures (p.StrList? || p.NoData?) ==> r == Failure(TypeError)
  {
    match p
    case Int(n) => DecimalTextParses(n); Success(DecimalText(n))
    case Str(_) => Failure(ValueError)
    case _ => Failure(TypeError)
  }

  /** `int(text, base)` raising ValueError on text it cannot read. */
  function IntFromText(text: string, base: Base): Result<int> {
    match ParseInt(text, base)
    case Some(n) => Success(n)
    case None => Failure(ValueError)
  }

  /** `int('{:d}'.format(p))`: an integer payload comes back unchanged, anything else raises. */
  function IntOf(p: Payload): (r: Result<int>)
    ensures p.Int? ==> r == Success(p.n)
    ensures p.Str? ==> r == Failure(ValueError)
    ensures (p.StrList? || p.NoData?) ==> r == Failure(TypeError)
  {
    var text :- FormatInt(p);
    IntFromText(text, 10)
  }

  /** `try: int('{:d}'.format(p)) except ValueError: int('{:s}'.format(p), 16)`. */
  function IntOrHex(p: Payload): (r: Result<int>)
    ensures p.Int? ==> r == Success(p.n)
    ensures p.Str? ==> (r.Success? <==> ParseInt(p.text, 16).Some?)
    ensures p.Str? && r.Success? ==> ParseInt(p.text, 16) == Some(r.value)
    ensures p.Str? && r.Failure? ==> r.error == ValueError
    ensures (p.StrList? || p.NoData?) ==> r == Failure(TypeError)
  {
    match IntOf(p)
    case Success(n) => Success(n)
    case Failure(e) =>
      if e == ValueError then
        var text :- FormatStr(p);
        IntFromText(text, 16)
      else Failure(e)
  }

  /** `try: int('{:d}'.format(p)) except ValueError: '{:s}'.format(p)`. */
  function IntOrRaw(p: Payload): (r: Result<LanguageCode>)
    ensures p.Int? ==> r == Success(Code(p.n))
    ensures p.Str? ==> r == Success(Raw(p.text))
    ensures (p.StrList? || p.NoData?) ==> r == Failure(TypeError)
  {
    match IntOf(p)
    case Success(n) => Success(Code(n))
    case Failure(e) =>
      if e == ValueError then
        var text :- FormatStr(p);
        Success(Raw(text))
      else Failure(e)
  }

  predicate NoNewlines(items: seq<string>) {
    forall i :: 0 <= i < |items| ==> '\n' !in items[i]
  }

  /** `'\n'.join(p)`: a list joins its items, a str joins its characters, an int or None raises. */
  function JoinPayload(p: Payload): (r: Result<string>)
    ensures r.Success? <==> (p.Str? || p.StrList?)
    ensures r.Failure? ==> r.error == TypeError
    ensures p.StrList? && p.items != [] && NoNewlines(p.items) ==> SplitLines(r.value) == p.items
    ensures p.StrList? && p.items == [] ==> r.value == ""
    ensures p.Str? && |p.text| <= 1 ==> r.value == p.text
  {
    match p
    case StrList(items) =>
      if items != [] && NoNewlines(items) then SplitJoinedLines(items); Success(JoinLines(items))
      else Success(JoinLines(items))
    case Str(text) => Success(JoinLines(Chars(text)))
    case _ => Failure(TypeError)
  }

  /** `'{:s}'.format(p)[4:]`: the stored hash without its four-character prefix. */
  function Sha1Of(p: Payload): (r: Result<string>)
    ensures r.Success? <==> p.Str?
    ensures p.Str? && |p.text| >= 4 ==> p.text == p.text[..4] + r.value
    ensures p.Str? && |p.text| <= 4 ==> r.value == ""
    ensures p.Int? ==> r == Failure(ValueError)
    ensures (p.StrList? || p.NoData?) ==> r == Failure(TypeError)
  {
    var text :- FormatStr(p);
    Success(DropFour(text))
  }

  /** Whatever the four-character prefix, the hash behind it is what is stored. */
  lemma Sha1DropsPrefix(prefix: string, hash: string)
    requires |prefix| == 4
    ensures Sha1Of(Str(prefix + hash)) == Success(hash)
  {
    assert (prefix + hash)[4..] == hash;
  }

  /** `text = '{:s}'.format(p)` and, unless `text` is empty, the date read from it;
      `parseDate` stands for `int(strptime(text, '%m/%d/%Y %H:%M:%S').strftime('%s'))`,
      None where that raises ValueError. Empty text yields no date rather than an error. */
  function DateOf(parseDate: string -> Option<int>, p: Payload): (r: Result<Option<int>>)
    ensures r.Success? <==> p.Str? && (p.text == "" || parseDate(p.text).Some?)
    ensures r.Success? ==> r.value == (if p.text == "" then None else parseDate(p.text))
    ensures r.Failure? ==> (r.error == ValueError <==> p.Int? || p.Str?)
  {
    var text :- FormatStr(p);
    if text == "" then Success(None)
    else match parseDate(text)
      case Some(n) => Success(Some(n))
      case None => Failure(ValueError)
  }
}
