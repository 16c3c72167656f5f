# Amcache Registry plugins, modelled in Dafny

This project models the two Windows Registry plugins in
`plaso/parsers/winreg_plugins/amcache.py`: `Amcache8Parser` (Windows 8 `Amcache.hve`) and
`Amcache10Parser` (Windows 10). Each plugin receives one registry key at a time. A key has a
path, a last-written time and a sequence of named values, and each value carries an int, a str,
a list of str, or no data. The plugin drops a key that has no values and routes the rest by path
prefix to one of four decoders:

- the Windows 8 `\Root\File` decoder;
- the Windows 8 `\Root\Programs` decoder;
- the Windows 10 `\Root\InventoryApplicationFile` decoder;
- the Windows 10 `\Root\InventoryApplication` decoder.

A decoder makes one pass over the values. It uses an if/elif chain on the value name to fill the
attributes of a fresh `AmcacheEventData` or `AmcacheProgramEventData` record and a local time
variable. After the loop it hands the record to the parser mediator together with one to four
events. Each event carries a time value (a FILETIME count, a POSIX count, or the key's
last-written time) and a meaning (Modification, Creation, Installation or Change). No exception
that escapes a conversion is caught (the only `except ValueError` catches the failure of the
`'{:d}'` stage and falls back to a second conversion), and every event is produced after the loop. So a value
whose data a conversion refuses makes the whole key yield no events.

Layout, one module per file:

- `python.dfy` (`Python`): the Python behaviour the plugins rely on:
  - `int(text, base)`, with whitespace stripping, an optional sign, the `0x` prefix and digit
    underscores (Python 3.6 and later);
  - `'{:d}'` rendering;
  - `'\n'.join` and splitting on `'\n'`;
  - `text[4:]`;
  - `if x:` truthiness.

  Exceptions are a `Result` with `TypeError` or `ValueError`.
- `events.dfy` (`Events`): the two record classes with their field tables, the time values and
  meanings, and `EventSink`, the mediator seen as the list of (record, event) pairs it receives.
- `registry.dfy` (`Registry`): keys, values, payloads and the per-value conversions:
  - `'{:s}'` and `'{:d}'`;
  - integer-else-base-16;
  - integer-else-raw-text;
  - `'\n'.join`;
  - the sha1 slice;
  - the date step.
- `scanning.dfy` (`Scanning`): the decoders' `for` loop as a left fold (`Scan`) that the first
  exception stops, its general laws, and `LastNamed`, "the last value of a name", which the
  decoders are specified against.
- `win8_file.dfy`, `win8_program.dfy`, `win10_file.dfy`, `win10_program.dfy`: the four decoders.
  Each file holds:
  - the field table (`NameOf`, `FieldNamed`);
  - the loop step as a function (`Step`, `Decode`, `Extract`);
  - the decoder itself as an imperative method (`ProcessKey`, with `StoreValue` for the loop
    body and, for the Windows 8 file decoder, `ProduceEvents` for the events after it) that
    mutates the record object and feeds the sink. It is proved equal to `Extract`;
  - an independent reference (`Reference`: every attribute is the last value of its name), with
    lemmas tying `Decode` to it.
- `win8_parser.dfy`, `win10_parser.dfy`: the two `ExtractEvents` routers.
- `plugins.dfy` (`Plugins`): facts about both plugins together, and the concrete values the
  plugins' tests expect.

The decoder methods are proved against the step functions in three layers:

1. `StoreValue` states what its own branch of the if/elif chain does to the record object and
   the time variable, in terms of `Step`.
2. `ProcessKey` keeps the loop invariant `Scan(Step, Start, values[..i]) == (record, time)`.
   Its postcondition says two things: what the sink receives is exactly
   `Extract(values).GetOr([])` appended to what it held, and the outcome is the exception, if
   any.
3. The `Decode*` lemmas then state the result without reference to the loop:
   - every attribute is the last value of its name;
   - the events are listed in order;
   - decoding fails exactly when some value carries data its conversion refuses;
   - unknown names change nothing.

## Model

| member | source | states |
|---|---|---|
| `Events.AmcacheEventData.constructor` | plaso/parsers/winreg_plugins/amcache.py:37-51 | a fresh file record has every one of its twelve attributes None |
| `Events.AmcacheProgramEventData.constructor` | plaso/parsers/winreg_plugins/amcache.py:74-89 | a fresh program record has every one of its thirteen attributes None |
| `Events.EventSink.Produce` | plaso/parsers/winreg_plugins/amcache.py:184 | producing an event appends exactly that (record, event) pair to what the mediator has received |
| `Events.Attach` | plaso/parsers/winreg_plugins/amcache.py:440-461 | one emission per event, in order, and every emission carries the same record |
| `Python.DecimalTextParses` | plaso/parsers/winreg_plugins/amcache.py:401 | `int('{:d}'.format(n))` gives back `n` for every integer, negative ones included |
| `Python.HexTextParses` | plaso/parsers/winreg_plugins/amcache.py:169 | `int(t, 16)` reads back every lower-case base-16 numeral `t` as its value |
| `Python.PrefixedHexTextParses` | plaso/parsers/winreg_plugins/amcache.py:175 | `int(t, 16)` also accepts the numeral behind a `0x` prefix |
| `Python.ForeignCharacterRejected` | plaso/parsers/winreg_plugins/amcache.py:169 | text holding a character that is neither a hex digit, whitespace, sign, `x` nor `_` makes `int(t, 16)` raise |
| `Python.NatTextParses` | plaso/parsers/winreg_plugins/amcache.py:167 | the digit string of a natural number is well-formed in its base and denotes that number |
| `Python.SplitJoinedLines` | plaso/parsers/winreg_plugins/amcache.py:365 | splitting `'\n'.join(items)` on newlines gives back `items` when no item holds a newline |
| `Python.JoinedLength` | plaso/parsers/winreg_plugins/amcache.py:374 | `'\n'.join(items)` is as long as the items plus one separator between each two |
| `Python.DropFour` | plaso/parsers/winreg_plugins/amcache.py:408 | `text[4:]` is what follows the first four characters, and is empty for text of four characters or fewer |
| `Python.ParseInt` | plaso/parsers/winreg_plugins/amcache.py:169 | `int(text, base)` raises on blank text and on text whose last non-blank character is not a digit of the base; only a leading `-` gives a negative number |
| `Registry.FormatStr` | plaso/parsers/winreg_plugins/amcache.py:151 | `'{:s}'.format(p)` succeeds exactly on a str and then gives its text unchanged; an int raises ValueError, a list or None TypeError |
| `Registry.FormatInt` | plaso/parsers/winreg_plugins/amcache.py:167 | `'{:d}'.format(p)` succeeds exactly on an int, and `int()` reads its text back as that int; a str raises ValueError, a list or None TypeError |
| `Registry.IntOf` | plaso/parsers/winreg_plugins/amcache.py:342 | `int('{:d}'.format(p))` returns an int payload unchanged, raises ValueError on a str and TypeError on a list or None |
| `Registry.IntOrHex` | plaso/parsers/winreg_plugins/amcache.py:165-175 | an int payload is stored unchanged; a str payload is always read in base 16, and raises ValueError exactly when `int(text, 16)` does; a list or None raises TypeError |
| `Registry.IntOrRaw` | plaso/parsers/winreg_plugins/amcache.py:223-227 | an int payload becomes an integer code, a str payload is kept as raw text, a list or None raises TypeError |
| `Registry.JoinPayload` | plaso/parsers/winreg_plugins/amcache.py:359-382 | `'\n'.join(p)` succeeds exactly on a str or a list; a list without newlines splits back into its items; an empty list gives ""; an int or None raises TypeError |
| `Registry.Sha1Of` | plaso/parsers/winreg_plugins/amcache.py:406-408 | the stored hash is the text after its first four characters, and "" for shorter text rather than an error; non-str data raises |
| `Registry.Sha1DropsPrefix` | plaso/parsers/winreg_plugins/amcache.py:153-154 | whatever the four-character prefix, the hash behind it is exactly what is stored |
| `Registry.DateOf` | plaso/parsers/winreg_plugins/amcache.py:145-148 | a date value succeeds exactly on a str that is empty or that the date conversion reads; empty text yields no date |
| `Registry.StartsWithTransitive` | plaso/parsers/winreg_plugins/amcache.py:101-102 | a path under a prefix is under every shorter prefix of it |
| `Scanning.ScanStopsAtFailure` | plaso/parsers/winreg_plugins/amcache.py:144-178 | once a value raises, the values after it change nothing: the exception leaves the loop |
| `Scanning.ScanSucceedsIffAllAccepted` | plaso/parsers/winreg_plugins/amcache.py:208-248 | when whether a value raises depends on the value alone, the loop completes exactly when every value is accepted |
| `Scanning.ScanSkipsIdle` | plaso/parsers/winreg_plugins/amcache.py:340-382 | a value the loop body leaves every state alone for can be removed from the key |
| `Scanning.ScanOneMore` | plaso/parsers/winreg_plugins/amcache.py:399 | the loop over one more value is the loop body applied once more, unless an earlier value raised |
| `Scanning.ScanFollows` | plaso/parsers/winreg_plugins/amcache.py:399-438 | when every completed turn of the loop takes the reference state of a prefix to that of the prefix one value longer, a loop that does not raise ends at the reference state of all the values |
| `Scanning.LastNamedIsLast` | plaso/parsers/winreg_plugins/amcache.py:399-438 | the last value of a name is None exactly when no value has that name, and otherwise a value of that name with none after it |
| `Scanning.LastNamedOneMore` | plaso/parsers/winreg_plugins/amcache.py:399-438 | appending a value replaces the last value of its own name only |
| `Amcache8File.FieldTable` | plaso/parsers/winreg_plugins/amcache.py:273-286 | the chain selects an attribute exactly for its own constant name, and some attribute exactly for the thirteen names |
| `Amcache8File.NamesSelectTheirFields` | plaso/parsers/winreg_plugins/amcache.py:273-286 | every attribute's own name selects that attribute, so no two attributes share a value name |
| `Amcache8File.StoreValue` | plaso/parsers/winreg_plugins/amcache.py:400-438 | one branch of the chain updates the record object and `amcache_datetime` as `Step` says, or reports the exception it raises |
| `Amcache8File.ProduceEvents` | plaso/parsers/winreg_plugins/amcache.py:440-461 | the sink receives, in order, the Modification at `amcache_datetime` and one event for each of the creation, last-modified and linker times that is nonzero, all with the same record |
| `Amcache8File.ProcessKey` | plaso/parsers/winreg_plugins/amcache.py:389-461 | the sink receives exactly the emissions `Extract` computes, and nothing when a value raises; the outcome is that exception |
| `Amcache8File.DecodeReadsLastValues` | plaso/parsers/winreg_plugins/amcache.py:397-461 | every attribute is the last value of its name; the events are a FILETIME Modification at "17" (0 when absent), then Creation, Modification and a POSIX Change for each nonzero "12", "11", "f", in that order |
| `Amcache8File.EventCount` | plaso/parsers/winreg_plugins/amcache.py:440-461 | one to four events, the first always the FILETIME Modification at "17" |
| `Amcache8File.DecodeSucceedsIffAccepted` | plaso/parsers/winreg_plugins/amcache.py:400-438 | the key raises exactly when some value of a known name holds the wrong kind of data: an integer attribute needs an int, a text attribute a str |
| `Amcache8File.UnknownNameIgnored` | plaso/parsers/winreg_plugins/amcache.py:399-438 | a value whose name is outside the table can be removed without changing anything |
| `Amcache8File.NoKnownNameLeavesRecordEmpty` | plaso/parsers/winreg_plugins/amcache.py:397-443 | a key with no known value name yields the all-None record and one Modification at FILETIME 0 |
| `Amcache8File.ScanReadsLastValues` | plaso/parsers/winreg_plugins/amcache.py:399-438 | the loop's state after any completed prefix of the values is the reference record and the last "17" |
| `Amcache8Program.FieldTable` | plaso/parsers/winreg_plugins/amcache.py:288-301 | the chain selects an attribute exactly for its own constant name, and some attribute exactly for the thirteen names |
| `Amcache8Program.NamesSelectTheirFields` | plaso/parsers/winreg_plugins/amcache.py:288-301 | every attribute's own name selects that attribute, so no two attributes share a value name |
| `Amcache8Program.StoreValue` | plaso/parsers/winreg_plugins/amcache.py:341-382 | one branch of the chain updates the record object and `amcache_datetime` as `Step` says, or reports the exception it raises |
| `Amcache8Program.ProcessKey` | plaso/parsers/winreg_plugins/amcache.py:330-387 | the sink receives exactly the emission `Extract` computes, and nothing when a value raises; the outcome is that exception |
| `Amcache8Program.DecodeReadsLastValues` | plaso/parsers/winreg_plugins/amcache.py:338-387 | every attribute is the last value of its name, list values joined by newlines; "7" and "Files" without data are passed over; the OS version is never set; the one event is a POSIX Installation at "a", 0 when absent |
| `Amcache8Program.DecodeSucceedsIffAccepted` | plaso/parsers/winreg_plugins/amcache.py:341-382 | the key raises exactly when a known value holds the wrong data: "a" needs an int; "d", "11" and "12" need a str or list; "7" and "Files" refuse only an int; the rest need a str |
| `Amcache8Program.UnknownNameIgnored` | plaso/parsers/winreg_plugins/amcache.py:340-382 | a value whose name is outside the table can be removed without changing anything |
| `Amcache8Program.EmptyGuardedValueIgnored` | plaso/parsers/winreg_plugins/amcache.py:359-362 | a "7" or "Files" value without data can be removed without changing anything |
| `Amcache8Program.FilePathsSplitBack` | plaso/parsers/winreg_plugins/amcache.py:364-365 | the stored "d" text splits back into the list of paths when no path holds a newline |
| `Amcache8Program.NoKnownNameLeavesRecordEmpty` | plaso/parsers/winreg_plugins/amcache.py:338-387 | a key with no known value name yields the all-None record and one Installation at POSIX 0 |
| `Amcache8Program.ScanReadsLastValues` | plaso/parsers/winreg_plugins/amcache.py:340-382 | the loop's state after any completed prefix of the values is the reference record and the last "a" |
| `Amcache10File.FieldTable` | plaso/parsers/winreg_plugins/amcache.py:145-177 | the chain selects an attribute exactly for its own name, and some attribute exactly for the nine names |
| `Amcache10File.StoreValue` | plaso/parsers/winreg_plugins/amcache.py:145-178 | one branch of the chain updates the record object and `linkdateint` as `Step` says, or reports the exception it raises |
| `Amcache10File.ProcessKey` | plaso/parsers/winreg_plugins/amcache.py:131-191 | the sink receives exactly the emissions `Extract` computes, and nothing when a value raises; the outcome is that exception |
| `Amcache10File.DecodeReadsLastValues` | plaso/parsers/winreg_plugins/amcache.py:139-191 | every attribute is the last value of its name, "Language" and "Size" text read in base 16; the events are a Modification at the key's last-written time, then a POSIX Creation when the last non-empty "LinkDate" gave a nonzero time |
| `Amcache10File.EventCount` | plaso/parsers/winreg_plugins/amcache.py:180-191 | one or two events, the first always the key's own Modification; two exactly when the link date is nonzero |
| `Amcache10File.DecodeSucceedsIffAccepted` | plaso/parsers/winreg_plugins/amcache.py:145-178 | the key raises exactly when a known value holds data its conversion refuses: a "LinkDate" that is not a str, or a non-empty one the date conversion rejects; a "Language" or "Size" that is neither an int nor base-16 text; a text attribute that is not a str |
| `Amcache10File.UnknownNameIgnored` | plaso/parsers/winreg_plugins/amcache.py:144-178 | a value whose name is outside the table can be removed without changing anything |
| `Amcache10File.EmptyLinkDateIgnored` | plaso/parsers/winreg_plugins/amcache.py:146-148 | an empty "LinkDate" can be removed without changing anything |
| `Amcache10File.NoKnownNameLeavesRecordEmpty` | plaso/parsers/winreg_plugins/amcache.py:139-184 | a key with no known value name yields the all-None record and only the Modification at its last-written time |
| `Amcache10File.ScanReadsLastValues` | plaso/parsers/winreg_plugins/amcache.py:144-178 | the loop's state after any completed prefix of the values is the reference record and the last non-empty link date |
| `Amcache10Program.FieldTable` | plaso/parsers/winreg_plugins/amcache.py:209-247 | the chain selects an attribute exactly for its own name, and some attribute exactly for the twelve names |
| `Amcache10Program.StoreValue` | plaso/parsers/winreg_plugins/amcache.py:209-248 | one branch of the chain updates the record object and `installdateint` as `Step` says, or reports the exception it raises |
| `Amcache10Program.ProcessKey` | plaso/parsers/winreg_plugins/amcache.py:194-260 | the sink receives exactly the emissions `Extract` computes, and nothing when a value raises; the outcome is that exception |
| `Amcache10Program.DecodeReadsLastValues` | plaso/parsers/winreg_plugins/amcache.py:202-260 | every attribute is the last value of its name; product and package codes are never set; the events are an Installation at the key's last-written time, then a POSIX Installation whenever a non-empty "InstallDate" was read |
| `Amcache10Program.EventCount` | plaso/parsers/winreg_plugins/amcache.py:250-260 | one or two events; two exactly when an install date was read, a date of 0 included |
| `Amcache10Program.DecodeSucceedsIffAccepted` | plaso/parsers/winreg_plugins/amcache.py:209-248 | the key raises exactly when a known value holds data its conversion refuses; "Language" refuses only a list or no data |
| `Amcache10Program.UnknownNameIgnored` | plaso/parsers/winreg_plugins/amcache.py:208-248 | a value whose name is outside the table can be removed without changing anything |
| `Amcache10Program.EmptyInstallDateIgnored` | plaso/parsers/winreg_plugins/amcache.py:210-212 | an empty "InstallDate" can be removed without changing anything |
| `Amcache10Program.NoKnownNameLeavesRecordEmpty` | plaso/parsers/winreg_plugins/amcache.py:202-253 | a key with no known value name yields the all-None record and only the Installation at its last-written time |
| `Amcache10Program.ScanReadsLastValues` | plaso/parsers/winreg_plugins/amcache.py:208-248 | the loop's state after any completed prefix of the values is the reference record and the last non-empty install date |
| `Amcache8Parser.RouteOf` | plaso/parsers/winreg_plugins/amcache.py:319-328 | a key goes to the file decoder exactly when it has values and its path starts with `\Root\File`, to the program decoder exactly when it has values and starts with `\Root\Programs`, and nowhere otherwise |
| `Amcache8Parser.PrefixesDisjoint` | plaso/parsers/winreg_plugins/amcache.py:273 | no path starts with both Windows 8 prefixes |
| `Amcache8Parser.ExtractEvents` | plaso/parsers/winreg_plugins/amcache.py:310-328 | the sink receives exactly what the routed decoder emits, or nothing |
| `Amcache8Parser.NoValuesNoEvents` | plaso/parsers/winreg_plugins/amcache.py:319-320 | a key with no values yields no events and no error |
| `Amcache8Parser.UnmatchedPathNoEvents` | plaso/parsers/winreg_plugins/amcache.py:322-328 | a key under neither prefix yields no events and no error |
| `Amcache8Parser.FileKeyEvents` | plaso/parsers/winreg_plugins/amcache.py:322-324 | a `\Root\File` key yields one to four events sharing the reference record, the first the FILETIME Modification at "17"; each carries the data type `windows:registry:amcache` |
| `Amcache8Parser.ProgramKeyEvents` | plaso/parsers/winreg_plugins/amcache.py:326-328 | a `\Root\Programs` key yields exactly one POSIX Installation event with the reference record, of data type `windows:registry:amcache:programs` |
| `Amcache8Parser.FailureYieldsNothing` | plaso/parsers/winreg_plugins/amcache.py:322-328 | only a key handed to one of the two decoders can raise |
| `Amcache10Parser.RouteOf` | plaso/parsers/winreg_plugins/amcache.py:120-129 | a key goes to the file decoder exactly when it has values and starts with the file prefix, to the program decoder exactly when it has values and starts with the program prefix but not the file prefix |
| `Amcache10Parser.FilePrefixExtendsProgramPrefix` | plaso/parsers/winreg_plugins/amcache.py:101-102 | every path under `\Root\InventoryApplicationFile` is also under `\Root\InventoryApplication` |
| `Amcache10Parser.OrderMatters` | plaso/parsers/winreg_plugins/amcache.py:123-128 | a file key goes to the file decoder, and would go to the program decoder if the program prefix were checked first |
| `Amcache10Parser.ExtractEvents` | plaso/parsers/winreg_plugins/amcache.py:111-129 | the sink receives exactly what the routed decoder emits, or nothing |
| `Amcache10Parser.NoValuesNoEvents` | plaso/parsers/winreg_plugins/amcache.py:120-121 | a key with no values yields no events and no error |
| `Amcache10Parser.UnmatchedPathNoEvents` | plaso/parsers/winreg_plugins/amcache.py:123-129 | a key outside `\Root\InventoryApplication` yields no events and no error |
| `Amcache10Parser.FileKeyEvents` | plaso/parsers/winreg_plugins/amcache.py:123-125 | a file key never reaches the program decoder; it yields one or two events sharing the file reference record, of data type `windows:registry:amcache`, the first a Modification at the last-written time |
| `Amcache10Parser.ProgramKeyEvents` | plaso/parsers/winreg_plugins/amcache.py:127-129 | a program key yields one or two Installation events sharing the program reference record, of data type `windows:registry:amcache:programs` |
| `Plugins.OnePluginPerKey` | plaso/parsers/winreg_plugins/amcache.py:101-102 | no key is decoded by both plugins |
| `Plugins.OutsideRootNoEvents` | tests/parsers/winreg_plugins/amcache.py:136-137 | a key outside `\Root\`, as in a SYSTEM hive, yields nothing from either plugin |
| `Plugins.StoredSha1Example` | tests/parsers/winreg_plugins/amcache.py:31 | the test file's 40-character hash is stored without its four leading zeros |
| `Plugins.HexFallbackExamples` | plaso/parsers/winreg_plugins/amcache.py:165-175 | an integer 1033 (the test file's language code) is stored as 1033; the text "16" is stored as 22, "0x409" as 1033, and "zz" raises ValueError |
| `Plugins.RawLanguageExample` | plaso/parsers/winreg_plugins/amcache.py:223-227 | the Windows 10 program language keeps the text "1033" as text and the integer 1033 as a code |

## Left out

- The date conversion of "LinkDate" and "InstallDate" (`strptime` with `'%m/%d/%Y %H:%M:%S'`,
  then `strftime('%s')`). It depends on the host time zone and the C library, so it is the
  parameter `parseDate`, a partial function from text to an integer (None where Python raises
  ValueError).
- The `dfdatetime` time values and `DateTimeValuesEvent`. Times are kept as tagged integers
  (FILETIME, POSIX, or the key's last-written time as given), and the 1601 and 1970 epoch
  arithmetic is not modelled.
- The parser mediator and dfwinreg. `ProduceEventWithEventData` is modelled as appending a
  (record, event) pair to `EventSink.emitted`. `GetValues`, `GetDataAsObject`, `number_of_values`,
  `path` and `last_written_time` are taken as the given fields of `RegistryKey`.
- The sink stores a copy of the record's value rather than a reference to the shared object.
  Every event of a key is produced after the loop, and nothing changes the record after the
  first event, so every emission of a key carries the same value (`Events.Attach`). Object
  identity itself is not modelled.
- The `FILTERS` sets and the `RegisterPlugin` calls (amcache.py:104-109, 303-308, 464-465) are
  plugin-framework registration and are not modelled. The routers do their own prefix tests.
- Payloads of other types (bytes from REG_BINARY values, lists holding non-str items) are not
  modelled. A payload is an int, a str, a list of str, or None.
- `int()` on text is modelled for ASCII digits and letters. Python also accepts other Unicode
  decimal digits, and these are not modelled.
- Integers are unbounded. The source has no fixed-width arithmetic, and the range checks of the
  time-value classes belong to `dfdatetime`, which is not part of this model.
- Behaviour the code has that a plain reading of the plugins' design might not expect. Each point
  is modelled as the code does it:
  - `'{:s}'` is not a best-effort coercion: an int raises ValueError and a list or None raises
    TypeError.
  - Text "Language" and "Size" values are always read in base 16, because the `'{:d}'` stage
    never succeeds on text. So "16" is stored as 22.
  - A sha1 text shorter than four characters is stored as "" rather than rejected.
  - One malformed value aborts the whole key, and no event is produced for it.
- Windows 10 program "Language" keeps raw text for a str, but a list or None still raises
  TypeError, which the `except ValueError` does not catch (`Registry.IntOrRaw`).
- The test fixtures (binary hives) are not modelled; only the values the plugins' tests assert
  appear, as lemmas in `Plugins`.
- The model follows Python 3.6 and later. The source also runs under Python 2.7 (amcache.py:4
  imports `unicode_literals`), where the conversions differ, and 2.7 is not modelled:
  - `'{:s}'.format(None)` gives `'None'`, and a list formats as its `repr`, instead of raising
    TypeError (`Registry.FormatStr`). A None "LowerCaseLongPath" is then stored as `'None'`.
  - `'{:d}'.format(None)` and `'{:d}'.format(list)` raise ValueError, not TypeError
    (`Registry.FormatInt`, `Registry.IntOf`). That ValueError is caught at amcache.py:168, 174
    and 226.
  - So the Windows 10 program "Language" never raises under 2.7: None is stored as `'None'`
    (`Registry.IntOrRaw`).
  - `int()` rejects digit underscores (`Python.ParseInt`).
  - The four `DecodeSucceedsIffAccepted` lemmas state the Python 3 acceptance of a value, which
    is stricter than 2.7's for a list or None.
