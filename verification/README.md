# A verified model of HELICS and its support code

HELICS couples simulators. This project models, in Dafny, how its federates agree on time,
and the parts of its repository that read and write configuration, exchange object graphs,
share types between language bindings and frame messages, and proves what those parts
promise.

* **TOML** (`ThirdParty/toml/toml.h`): the byte lexer with its two token modes, the
  recursive-descent parser with one token of lookahead and a cursor into a growing tree,
  the printer, and the tree addressed by dotted keys. `TomlText`, `TomlNumbers`,
  `TomlUnicode` and `TomlLexer` go from characters to tokens; `TomlGrammar` states what the
  parser makes of a text and `TomlParser` is the parser itself; `TomlWriter` is the printer
  and `TomlLayout` says what its output looks like; `TomlValue`, `TomlPaths`, `TomlMerge` and
  `TomlDocument` are the tree. `TomlEscapes`, `TomlInline`, `TomlPieces`, `TomlForms`,
  `TomlReadBack` and `TomlRoundTrip` connect the two directions.
* **cereal archives** (`ThirdParty/cereal`): a writer and a reader that keep separate tables
  and must stay in step over one stream. `CerealArchive` states what is written and read,
  `CerealRoundTrip` proves that graphs come back, `CerealVersions` which versions their objects
  see, `CerealStreams` holds the archive classes, `PortableBinary` the conversion between byte
  orders, and `CerealPortable` joins the two.
* **SWIG runtime** (`interfaces/matlab/helicsMEX.cpp`): `SwigNames` compares type names,
  `SwigCasts` is the linked list of casts that moves hits to the front, `SwigQuery` searches
  a circle of modules, `SwigInit` and `SwigRegistry` load a module into the circle,
  `SwigPack` turns binary data into text.
* **ZeroMQ add-on** (`ThirdParty/cppzmq/zmq_addon.hpp`): `ZmqMultipart` frames messages,
  `ZmqPoller` caches handlers.
* **Time coordination** (`src/helics/core`): `TimeDependencies` is the table of what a
  federate knows of others, `TimeCoordinator` decides what it asks for, tells and is
  granted, `TimeGrants` proves what holds of one federate in every run, `TimePromises` what a
  federate may tell others and `TimeNetwork` what holds of all federates together in every run.
  `TimeRuns` is about runs that are given step by step, `TimeOvertaking` gives runs in which
  federates in a row fall out of step, and `TimePipeline` and `TimeLoop` say exactly which lines
  of federates and which pairs never do. `TimeProgress` and `TimeStandstill` say exactly which
  pairs can always go on, and `TimeAcyclic` that all networks without cycles can.

The main results are `TomlRoundTrip.RoundTrip`, `TomlForms.FormsParse`, `TomlGrammar.After` and
`TomlGrammar.ParseEnds`, `CerealRoundTrip.GraphRoundTrip`, `CerealVersions.VersionsRoundTrip`,
`CerealPortable.GraphIsPortable`,
`SwigRegistry.InitializeModule`, `SwigQuery.TypeQueryModule`, `SwigCasts.RunIsRecency`,
`ZmqMultipart.MessagesArrive`, `ZmqPoller.ActivePoller.Wait`,
`TimeNetwork.NoOneRunsAhead`, `TimePipeline.LineInTime`,
`TimePipeline.LineInTimeWithoutIteration`, `TimeLoop.LoopInTime`,
`TimeStandstill.LoopGoesOn`, `TimeAcyclic.AcyclicGoesOn`, `TimeGrants.PeriodAndOffset` and
`TimeGrants.GrantedForNews`.

Where the original works in place, the model does: lexer, parser, printer, document,
archives, linked lists, tables, messages, pollers and time coordinators are classes whose
methods are proved against functions of their old state, and the theorems are about those functions.

## How the model reads the source

* Text is a sequence of characters, one per byte. Character classes are those of the "C"
  locale.
* A pointer into the TOML tree is a path of children and elements; assigning through it is
  `TomlValue.Put`. The tree itself is a value, and a document is an object that holds one.
* The conversions of doubles and times are parameters: `TomlLexer.Library` for reading, of
  which only is asked that the empty text is no time, and `TomlWriter.Formats` for printing.
* Objects that are saved live in a heap from addresses to objects; a schema gives every
  class its numbers, members, version and hash. Two classes may share a hash.
* A socket is a queue of frames with a script of refusals; the poller of the library is a
  table with a script of faults. All scripts are arbitrary.
* Lists of casts and circles of modules are real linked structures. Ghost fields hold their
  contents; `owner` says which list a cast is in.
* A C string is its characters; its terminator is what is read at its end.
* Times are whole ticks, the largest of which stands for no time at all. Sums do not
  overflow.
* A network starts when all federates have entered execution mode. Messages of one federate
  to another arrive in order, and otherwise in any order. A federate publishes while it acts at
  the time it was granted, and takes messages only once it calls for a new time: first those
  that are queued, then its own request goes out and it waits. So a federate that has taken a
  message publishes nothing more before its next grant. A look at whether a time can be granted
  follows every request and every timing message that reaches a waiting federate.

## Where the code differs from what is written about it

* The integer recogniser accepts a lone sign (`TomlNumbers.IntegerLanguage`).
* A key in a line is looked up as a dotted path before it is stored under its own name, so a
  quoted key can be taken for another (`TomlRoundTrip.BlankAtEndIsMisread`); `RoundTrip`
  gives the exact condition, and `TomlForms.InlineTableReads` that for inline tables.
* The same lookup makes merging differ from the right-biased merge in two ways. A key that reads
  as the path of another table sends its entries there (`TomlMerge.DottedKeyGoesElsewhere`). A
  key that is no path at all is never found, so that the new table replaces the old one and what
  only that held is lost (`TomlMerge.SpacedKeyLosesTable`). `TomlMerge.MergeOneStraightEntry`
  gives the exact condition for one entry under any key, and `TomlMerge.MergeExactly` for whole
  tables, both for values in which no key is of the first kind. With such keys further down,
  `TomlMerge.MergeOneEntry` leaves the condition to the merge of the tables below.
* A header of a group appends to any array that is there, also one without tables
  (`TomlGrammar.AppendedTables`, `TomlRoundTrip.NumberAndTable`).
* Comparing type names skips blanks only in front of characters, so names that end in a
  blank are never the same as any name (`SwigNames.TypeNameComp`).
* A cast that a module adds to a shared type leads to the module's own copy of a type that is
  known already, and to the shared type in all other cases (`SwigRegistry.InitializeModule`). A
  lookup by name then finds the cast, and a lookup by the shared type does not
  (`SwigRegistry.CastIsMissed`, `SwigRegistry.CastIsMissedExample`).
* A module that is in the circle of one interpreter and is loaded into another breaks the
  circle of the first, unless it is there already or is the first module of the other
  (`SwigRegistry.LinkModule`, `SwigRegistry.CircleBreaks`).
* A refused part of a message is lost (`ZmqMultipart.Multipart.Send`).
* Granted times are whole periods, without the offset that the documentation adds to them
  (`TimeGrants.PeriodAndOffset`, `TimeGrants.OffsetIsLost`). Uninterruptible federates are
  granted what they ask for, whole periods or not (`TimeGrants.UninterruptibleGrant`,
  `TimeGrants.PeriodIsLost`); if they ask for whole periods only, they are granted such if and
  only if the offset is one (`TimeGrants.UninterruptibleOnPeriods`).
* The next scheduled events that federates tell each other can be out of date when they are
  used, so that data comes too late for a federate that has moved on. Cycles and plain pipelines
  both fail. Between two federates that depend on each other, data always comes in time if and
  only if one of them is uninterruptible (`TimeLoop.LoopInTime`). In a line of any length it does
  if and only if no two interruptible federates follow each other between others
  (`TimePipeline.LineInTime`), or no three as long as nobody iterates
  (`TimePipeline.LineInTimeWithoutIteration`). `TimeNetwork.NoOneRunsAhead` gives a condition
  that is enough for networks of any shape.

* Federates that depend on each other can come to a standstill, in which all of them wait and
  nothing is under way. A federate that waits for data only, and so for the end of time, does not
  tell any more when its next event changes; and a federate that iterates is taken for one that
  acts. A pair can always go on if and only if both are uninterruptible, and the same holds of
  runs without iteration and of runs with requests for proper times; without iteration and with
  such requests every pair can (`TimeStandstill.LoopGoesOn`). Networks without cycles always can
  (`TimeAcyclic.AcyclicGoesOn`).

## Model

| member | source | states |
|---|---|---|
| TomlText.StripDelimiter | ThirdParty/toml/toml.h:449-458 | drops every underscore and nothing else |
| TomlText.Escape | ThirdParty/toml/toml.h:585-601 | writes each of the six escaped characters as its two-character form and copies all others |
| TomlText.WriteKey | ThirdParty/toml/toml.h:1320-1341 | writes a key of key characters only as it is, and any other in quotes with its quotes escaped |
| TomlText.IntTextReads | ThirdParty/toml/toml.h:861-866 | the decimal text of every 64-bit integer converts back to it |
| TomlNumbers.Scan | ThirdParty/toml/toml.h:497-522 | the index loop over digit groups stops where the scan of the text does |
| TomlNumbers.RecogniseInteger | ThirdParty/toml/toml.h:499-522 | the index loop computes the predicate that the language theorem is about |
| TomlNumbers.RecogniseDouble | ThirdParty/toml/toml.h:524-583 | the index loop computes the predicate that the language theorem is about |
| TomlNumbers.IntegerLanguage | ThirdParty/toml/toml.h:499-522 | exactly an optional sign and digits in groups joined by single underscores are accepted, plus the two lone signs |
| TomlNumbers.DoubleLanguage | ThirdParty/toml/toml.h:524-583 | exactly an optional sign, digit groups around an optional dot with a digit on one side, and an optional exponent with a digit are accepted |
| TomlNumbers.StrippedInteger | ThirdParty/toml/toml.h:861-866 | what is accepted as an integer is an optional sign and digits once its underscores are gone |
| TomlUnicode.MasksAreRemainders | ThirdParty/toml/toml.h:460-495 | the shifts and masks on 32-bit words are the quotients and remainders of the arithmetic model |
| TomlUnicode.DecodeEncodes | ThirdParty/toml/toml.h:460-495 | the bytes of any sequence of code points that are no surrogates decode, by section 3 of RFC 3629, to that sequence |
| TomlUnicode.HexTextReads | ThirdParty/toml/toml.h:460-470 | the hexadecimal text of a code point, in digits of either case, reads as its number |
| TomlLexer.Lexer.SkipByteOrderMark | ThirdParty/toml/toml.h:610-633 | takes the three bytes of a byte order mark, or refuses an input that starts with only part of one |
| TomlLexer.Lexer.Next | ThirdParty/toml/toml.h:644-649 | moves on by one character and counts lines |
| TomlLexer.Lexer.SkipWhile | ThirdParty/toml/toml.h:662-670 | moves to the first character outside a class, the line count staying in step |
| TomlLexer.Lexer.NextHex | ThirdParty/toml/toml.h:710-719 | takes at most the given number of hexadecimal digits and stops at the first other character |
| TomlLexer.Lexer.NextEscape | ThirdParty/toml/toml.h:700-733 | reads one escape as the function of the remaining text says, with the same position after it on failure |
| TomlLexer.Lexer.NextStringDoubleQuote | ThirdParty/toml/toml.h:672-759 | reads a double-quoted string, of one line or more, as the function of the remaining text says |
| TomlLexer.Lexer.NextStringSingleQuote | ThirdParty/toml/toml.h:761-818 | reads a single-quoted string, of one line or more, as the function of the remaining text says |
| TomlLexer.Lexer.NextKey | ThirdParty/toml/toml.h:820-833 | reads the longest run of key characters |
| TomlLexer.Lexer.NextValue | ThirdParty/toml/toml.h:835-876 | reads a word and gives it the first kind that accepts it: boolean, integer, double, time |
| TomlLexer.Lexer.Lex | ThirdParty/toml/toml.h:971-1034 | one call moves from a text to the token and the rest that the function names; the line number is one more than the newlines passed |
| TomlLexer.NextToken | ThirdParty/toml/toml.h:981-1034 | a token that is neither the end nor an error has consumed something: the measure of every loop above the lexer |
| TomlEscapes.StringReads | ThirdParty/toml/toml.h:585-601 | the quoted, escaped form of every string lexes to that string and leaves the rest (for the empty string the rest must not start with a quote) |
| TomlEscapes.KeyReads | ThirdParty/toml/toml.h:1320-1341 | the escaped form of every non-empty key lexes to that key when no key character follows |
| TomlEscapes.IntegerReads | ThirdParty/toml/toml.h:855-866 | every 64-bit integer, printed with underscores between digits in any way that the recogniser accepts, lexes to itself |
| TomlEscapes.BoolReads | ThirdParty/toml/toml.h:840-853 | both booleans lex to themselves |
| TomlEscapes.UnicodeReads | ThirdParty/toml/toml.h:708-722 | a double-quoted string of Unicode escapes, short ones of four digits and long ones of eight in either case, lexes to bytes that decode to the code points written |
| TomlInline.LiteralReads | ThirdParty/toml/toml.h:808-817 | between single quotes every other character stands for itself |
| TomlInline.MultilineReads | ThirdParty/toml/toml.h:775-805 | a multi-line literal string reads as its text without the first newline, for every text without three quotes in a row or a quote at its end |
| TomlInline.MultilineStringReads | ThirdParty/toml/toml.h:688-758 | a multi-line string of escaped text reads as that text, for every text |
| TomlPieces.QuotedReads | ThirdParty/toml/toml.h:671-758 | a double-quoted string reads as what its pieces stand for: characters as they are, the six short escapes, Unicode escapes and lines that are folded by a backslash, in any order |
| TomlPieces.LinesRead | ThirdParty/toml/toml.h:680-758 | so does one over several lines, which may also hold single and double quotes and ends of lines; what is dropped after the opening are its blanks and one end of a line |
| TomlPieces.RawLinesRead | ThirdParty/toml/toml.h:768-805 | a literal string over several lines reads as its text, with or without an end of the line after its opening |
| TomlInline.LineJoins | ThirdParty/toml/toml.h:726-730 | a backslash at the end of a line drops all blanks and newlines up to the next text |
| TomlInline.CommentReads | ThirdParty/toml/toml.h:984-998 | a comment reads as the end of its line |
| TomlForms.SpaceReads | ThirdParty/toml/toml.h:1975-2011 | blanks, ends of lines and comments between the elements of an array are skipped |
| TomlForms.FormReads | ThirdParty/toml/toml.h:1921-2056 | every way to write a value is read as what it means, a value, an error or the exception for a key that is refused: integers with underscores, doubles, times, double-quoted strings with all escapes, literal strings, both kinds of strings over several lines, and arrays over several lines and inline tables of these, nested in any way and with any keys |
| TomlForms.FormLineReads | ThirdParty/toml/toml.h:1881-1906 | a line with a key and any of these values puts what the value means under the key, or gives the error or exception that belongs to it |
| TomlForms.FormsParse | ThirdParty/toml/toml.h:1783-1807 | a text of such lines is parsed as what they mean one after the other |
| TomlForms.InlineTableReads | ThirdParty/toml/toml.h:2013-2056 | an inline table of any entries reads as what they make one after the other; it is the table of exactly these entries if and only if every key is its own path, every value has a meaning and no key comes twice |
| TomlValue.AtPut | ThirdParty/toml/toml.h:1535-1540 | what is stored through a pointer is found there |
| TomlValue.PutAppend | ThirdParty/toml/toml.h:1554-1564 | storing through a pointer below a pointer is storing the changed value through the upper one |
| TomlValue.SortedKeys | ThirdParty/toml/toml.h:1343-1415 | the entries of a table are visited once each, in ascending order of their keys |
| TomlPaths.SetSucceeds | ThirdParty/toml/toml.h:1661-1698 | setting succeeds exactly when the key is a dotted path of which no proper prefix is bound to something other than a table, and then stores the value at that path and creates the tables on the way |
| TomlPaths.SetThenFind | ThirdParty/toml/toml.h:1478-1540 | after a successful set the key finds the value, and every key whose path diverges finds what it found before |
| TomlPaths.EraseThenFind | ThirdParty/toml/toml.h:1566-1600 | erasing succeeds exactly when the key was there; afterwards it finds nothing, and every key whose path diverges finds what it found before |
| TomlPaths.JoinedKeysRead | ThirdParty/toml/toml.h:1478-1504 | the dot-joined escaped forms of any non-empty keys walk exactly those keys |
| TomlMerge.MergeExactly | ThirdParty/toml/toml.h:1511-1533 | for all tables without keys that read as the path of another: merging always succeeds, and is the recursive right-biased merge if and only if, under every key that is no path, the old table holds nothing that the new one does not |
| TomlMerge.MergeIsRightMerge | ThirdParty/toml/toml.h:1511-1533 | for bare keys merging always succeeds and is the recursive right-biased merge of maps |
| TomlMerge.MergeTwice | ThirdParty/toml/toml.h:1511-1533 | merging again changes nothing, and merging a copy of oneself is the identity |
| TomlMerge.MergeOneEntry | ThirdParty/toml/toml.h:1511-1533 | for one entry under any key, there or new: merging always succeeds, and is the right-biased merge if and only if the key is no path to a table and the new value has all that the old one has, or names itself and the tables under it merge so, or names another table and merging into that changes nothing; no key is added when there is a table to merge into |
| TomlMerge.MergeOneStraightEntry | ThirdParty/toml/toml.h:1511-1533 | when no key inside the value reads as the path of another, that condition without the merge: the new value has all keys of the old one, or the two tables fit, or the entry is there and in the other table already |
| TomlMerge.SettledIsNotChanged | ThirdParty/toml/toml.h:1511-1533 | merging changes nothing if and only if every entry is there already, and the same below keys that name themselves |
| TomlMerge.CoveredIsReplaced | ThirdParty/toml/toml.h:1525-1528 | replacing a value is the same as merging exactly when the new value has every key of the old one, at every level where both are tables |
| TomlMerge.SpacedKeyLosesTable | ThirdParty/toml/toml.h:1519-1528 | under a key with a blank inside, merging one table into another loses the old table |
| TomlMerge.DottedKeyGoesElsewhere | ThirdParty/toml/toml.h:1519-1523 | a concrete family of inputs for which merging is not the right-biased merge |
| TomlDocument.FindValue | ThirdParty/toml/toml.h:1478-1504 | the loop over the tokens of the key finds what the path it spells leads to |
| TomlDocument.Document.SetChild | ThirdParty/toml/toml.h:1542-1564 | sets a child, turning a null value into a table first and failing on any other value |
| TomlDocument.Document.SetKey | ThirdParty/toml/toml.h:1661-1698 | the loop over the tokens of the key leaves the tree that the recursive set gives, also when it fails half way |
| TomlDocument.Document.EraseKey | ThirdParty/toml/toml.h:1566-1592 | the loop over the tokens of the key leaves the tree that the recursive erase gives |
| TomlDocument.Document.MergeAt | ThirdParty/toml/toml.h:1511-1533 | the loop over the entries, with its recursive calls on places inside the tree, leaves the tree that the recursive merge gives |
| TomlGrammar.After | ThirdParty/toml/toml.h:1783-1807 | on every input, after any number of turns of the main loop, the cursor denotes a table inside the root, and there are no more turns than characters |
| TomlGrammar.ParseEnds | ThirdParty/toml/toml.h:1783-1807 | on every input parsing ends with a table, with a non-empty first error, or with the exception of a table that refuses the key of an inline table as a path |
| TomlGrammar.ParseValue | ThirdParty/toml/toml.h:1921-1956 | a value that parses has consumed something, and an exception names a table and a key it refuses |
| TomlGrammar.Enter | ThirdParty/toml/toml.h:1809-1879 | one key of a table header fails or leaves the cursor on a table of the tree, in which what is missing was created |
| TomlGrammar.Append | ThirdParty/toml/toml.h:1844-1860 | the last key of a header of a group is refused exactly when it is bound to something other than an array; otherwise the array, new or of any elements, gets one empty table at its end, and that is where the cursor goes |
| TomlGrammar.AppendedTables | ThirdParty/toml/toml.h:1844-1860 | after that, the array consists of tables if and only if it is new or consisted of tables before |
| TomlParser.Parser.Advance | ThirdParty/toml/toml.h:1726-1756 | reads the next token, the lookahead staying in step with the unread text |
| TomlParser.Parser.SkipEmptyLines | ThirdParty/toml/toml.h:1726-1736 | skips all ends of lines, in the token mode asked for |
| TomlParser.Parser.TakeEndOfLine | ThirdParty/toml/toml.h:1758-1766 | takes the end of a line or of the input, and nothing else |
| TomlParser.Parser.Report | ThirdParty/toml/toml.h:1768-1776 | keeps the first error only, with the line that the lexer has reached |
| TomlParser.Parser.ReadValue | ThirdParty/toml/toml.h:1921-1956 | returns the value, the failure or the exception that the rules give, and leaves the state they give |
| TomlParser.Parser.ReadArray | ThirdParty/toml/toml.h:1975-2011 | the loop gives what the recursive rule gives; elements of different kinds fail |
| TomlParser.Parser.ReadInlineTable | ThirdParty/toml/toml.h:2013-2056 | the loop gives what the recursive rule gives; a repeated key fails and a key that is no path throws |
| TomlParser.Parser.ReadEntry | ThirdParty/toml/toml.h:2021-2045 | one entry, up to its value, advances the loop over entries as the recursive rule does |
| TomlParser.Parser.ReadKeys | ThirdParty/toml/toml.h:1820-1868 | the loop over the keys of a header leaves the tree, the cursor and the state of the recursive rule |
| TomlParser.Parser.EnterTable | ThirdParty/toml/toml.h:1830-1838 | goes to the named table, or the last of an array, or creates it |
| TomlParser.Parser.AppendTable | ThirdParty/toml/toml.h:1844-1860 | appends a table to the named array, which is created when there is none |
| TomlParser.Parser.ReadHeader | ThirdParty/toml/toml.h:1809-1879 | leaves the tree, the cursor and the state that the rules give |
| TomlParser.Parser.ReadLine | ThirdParty/toml/toml.h:1881-1906 | adds one key and value to the table under the cursor, or fails as the rules do |
| TomlParser.Parser.ParseDocument | ThirdParty/toml/toml.h:1783-1807 | the main loop gives the outcome of the recursive run from the same state |
| TomlParser.ParseInput | ThirdParty/toml/toml.h:389-402 | the whole imperative parser returns the outcome of the rules on every input |
| TomlWriter.Writer.Write | ThirdParty/toml/toml.h:1343-1415 | the recursive printer appends the text of the value, for every value and indentation; a null value anywhere in it throws |
| TomlWriter.Writer.WriteArray | ThirdParty/toml/toml.h:1371-1379 | the loop appends the elements between brackets, separated by commas |
| TomlWriter.Writer.WriteLines | ThirdParty/toml/toml.h:1380-1389 | the first loop over a table appends the lines of all entries that are no sections |
| TomlWriter.Writer.WriteLine | ThirdParty/toml/toml.h:1386-1388 | appends one entry with its key escaped, or throws for a null value |
| TomlWriter.Writer.WriteSections | ThirdParty/toml/toml.h:1390-1409 | the second loop over a table appends its subtables and groups of tables, each under its header |
| TomlWriter.Writer.WriteSection | ThirdParty/toml/toml.h:1391-1408 | appends a subtable under its header, or a group of tables |
| TomlWriter.Writer.WriteGroups | ThirdParty/toml/toml.h:1404-1407 | the loop appends one header and table for every element of a group |
| TomlLayout.TableLayout | ThirdParty/toml/toml.h:1380-1409 | the header of a table has an empty line before it and the given indentation, and the lines below are one blank further in if anything is indented |
| TomlLayout.GroupLayout | ThirdParty/toml/toml.h:1402-1408 | every table of a group has a header of its own with an empty line before it and the given indentation |
| TomlReadBack.ValueReads | ThirdParty/toml/toml.h:1343-1380 | the text of every boolean, integer, string and array of these parses to that value exactly when its arrays are homogeneous |
| TomlReadBack.TableHeaderReads | ThirdParty/toml/toml.h:1809-1879 | a printed table header leads to the table of the dotted keys, whatever the keys |
| TomlReadBack.GroupHeaderReads | ThirdParty/toml/toml.h:1809-1879 | a printed header of a group appends a table at the dotted keys, whatever the keys, and is refused exactly when the last key is empty or bound to something other than an array |
| TomlRoundTrip.TableRun | ThirdParty/toml/toml.h:1783-1906 | parsing the lines and sections of a printed table, from any state whose cursor is on an empty table, fills that table with exactly those entries and leaves the rest of the tree alone |
| TomlRoundTrip.RoundTrip | ThirdParty/toml/toml.h:1343-1415 | for every document, with any keys, printed with or without indentation: parsing the text gives the document back if and only if it is readable, and ends with an error otherwise |
| TomlRoundTrip.ReadableIsAllOk | ThirdParty/toml/toml.h:1881-1906 | readable means homogeneous arrays, no empty keys, and no key that is taken for an earlier one when it is looked up as a path |
| TomlRoundTrip.PlainRoundTrip | ThirdParty/toml/toml.h:1343-1415 | every document with bare keys and homogeneous arrays is read back |
| TomlRoundTrip.BlankAtEndIsMisread | ThirdParty/toml/toml.h:1899-1902 | a family of documents that are not read back: two keys that differ by a blank at the end |
| TomlRoundTrip.GroupAfterDocument | ThirdParty/toml/toml.h:1783-1879 | any readable document, printed and followed by the header of a group, parses to the document with one more table in that array, whatever it holds, and to an error for any other value |
| TomlRoundTrip.NumberAndTable | ThirdParty/toml/toml.h:1844-1860 | the input with `a = [1]` and then `[[a]]` parses to an array of a number and a table |
| CerealArchive.TagBits | ThirdParty/cereal/details/helpers.hpp:293-294 | as bits of a 32-bit word, the tag of a new id leaves the other bits as they are, and the second tag is set in the second and the fourth quarter of the words |
| CerealArchive.PointerRegistered | ThirdParty/cereal/cereal.hpp:323-337 | ids are the numbers from 1 on, one per address; the top bit tells a first time from a repetition as long as ids stay below 2^31 |
| CerealArchive.NameRegistered | ThirdParty/cereal/cereal.hpp:347-358 | name ids are the numbers from 1 on, one per name, never 0 and never with the second bit set |
| CerealArchive.VersionRegistered | ThirdParty/cereal/cereal.hpp:523-536 | a class hash is recorded once: it has the version that the table had for it, or that of the class if there was none, and no other entry changes |
| CerealArchive.SavePointer | ThirdParty/cereal/types/memory.hpp:262-273 | a saved pointer leaves the ids numbered without gaps and everything registered before unchanged |
| CerealArchive.LoadPointer | ThirdParty/cereal/types/memory.hpp:327-343 | loading a pointer, on any stream, never gives an item back, which bounds the recursion through cycles |
| CerealRoundTrip.PointerLoads | ThirdParty/cereal/types/memory.hpp:262-343 | what one save of a pointer writes, one load reads, and both archives are in step afterwards |
| CerealRoundTrip.PolyLoads | ThirdParty/cereal/types/polymorphic.hpp:330-379 | what one save of a polymorphic pointer writes, one load reads: null, exact class or named class, with or without the name |
| CerealRoundTrip.VersionLoads | ThirdParty/cereal/cereal.hpp:931-948 | the reader consumes a version exactly when the writer emitted one, and sees the version the writer used, also when classes share a hash |
| CerealRoundTrip.NameLoads | ThirdParty/cereal/types/polymorphic.hpp:196-222 | the reader consumes a name exactly when the writer emitted one, and finds the writer's name otherwise |
| CerealRoundTrip.GraphRoundTrip | ThirdParty/cereal/types/memory.hpp:262-343 | any graph of objects, with sharing, cycles, null, polymorphic and nested members and versions, is loaded as an isomorphic graph, with the stream consumed to its end |
| CerealVersions.VersionsRoundTrip | ThirdParty/cereal/details/helpers.hpp:404-413 | every loaded object of a versioned class, also one inside another, has the version that the program had for its hash; without one it has the declared version of the first class of that hash that a walk over the graph meets, and so its own if no other class with that hash is met |
| CerealVersions.ContentsFollow | ThirdParty/cereal/cereal.hpp:523-553 | a save registers exactly the objects and the versions that a depth-first walk over the graph meets, in that order |
| CerealRoundTrip.AliasingKept | ThirdParty/cereal/cereal.hpp:323-337 | two loaded positions hold the same object exactly when their addresses were equal, and null exactly when they were null |
| CerealRoundTrip.RepeatedId | ThirdParty/cereal/details/helpers.hpp:293-294 | a repeated pointer is taken for a new one if and only if its id has reached 2^31 |
| CerealPortable.GraphIsPortable | ThirdParty/cereal/archives/portable_binary.hpp:120-254 | any graph, saved as bytes on a machine of either byte order into a stream of either order, is loaded on a machine of either order as an isomorphic graph, with all bytes consumed |
| CerealPortable.BlocksRead | ThirdParty/cereal/types/string.hpp:41-60 | numbers and texts, stored as elements and as a length with characters, are taken for the same by the machine that stored them |
| CerealStreams.Versions.Find | ThirdParty/cereal/details/helpers.hpp:404-413 | returns the version stored for the hash, or the given one, which is stored then; no other entry changes |
| CerealStreams.OutputArchive.RegisterSharedPointer | ThirdParty/cereal/cereal.hpp:323-337 | returns the id and leaves the archive of the specification |
| CerealStreams.OutputArchive.RegisterPolymorphicType | ThirdParty/cereal/cereal.hpp:347-358 | returns the id and leaves the archive of the specification |
| CerealStreams.OutputArchive.RegisterClassVersion | ThirdParty/cereal/cereal.hpp:523-536 | writes the version the first time only, and leaves the archive of the specification |
| CerealStreams.OutputArchive.SavePtr | ThirdParty/cereal/types/memory.hpp:262-273 | appends the id and, the first time, the object behind it, through cycles |
| CerealStreams.OutputArchive.SaveObj | ThirdParty/cereal/cereal.hpp:541-553 | appends the version, the numbers and the members of an object |
| CerealStreams.OutputArchive.SaveAll | ThirdParty/cereal/cereal.hpp:541-553 | the members are appended in order, and the archive of the specification is left |
| CerealStreams.OutputArchive.SaveNamed | ThirdParty/cereal/details/polymorphic_impl.hpp:564-579 | appends the name id and, the first time, the name |
| CerealStreams.OutputArchive.SaveOne | ThirdParty/cereal/types/polymorphic.hpp:330-361 | appends one member as its declaration asks |
| CerealStreams.InputArchive.GetSharedPointer | ThirdParty/cereal/cereal.hpp:708-718 | returns null for 0, the object of a known id, and throws for any other |
| CerealStreams.InputArchive.RegisterSharedPointer | ThirdParty/cereal/cereal.hpp:725-729 | binds the id without its top bit |
| CerealStreams.InputArchive.GetPolymorphicName | ThirdParty/cereal/cereal.hpp:737-745 | returns the name of a known id and throws for any other |
| CerealStreams.InputArchive.RegisterPolymorphicName | ThirdParty/cereal/cereal.hpp:753-757 | binds the id without its top bit unless it is bound |
| CerealStreams.InputArchive.LoadClassVersion | ThirdParty/cereal/cereal.hpp:931-948 | reads a version the first time only |
| CerealStreams.InputArchive.LoadPtr | ThirdParty/cereal/types/memory.hpp:327-343 | the object is registered before its contents are read, so that cycles close; leaves the archive of the specification or throws as it does |
| CerealStreams.InputArchive.LoadObj | ThirdParty/cereal/cereal.hpp:953-968 | reads the version, the numbers and the members of an object, or throws as the specification does |
| CerealStreams.InputArchive.LoadAll | ThirdParty/cereal/cereal.hpp:953-968 | the members are read in order, or the first failure is thrown |
| CerealStreams.InputArchive.LoadOne | ThirdParty/cereal/types/polymorphic.hpp:365-379 | reads one member as its declaration asks, on any stream |
| PortableBinary.SwappedTwice | ThirdParty/cereal/archives/portable_binary.hpp:52-57 | reversing the bytes of every element twice is the identity |
| PortableBinary.Portable | ThirdParty/cereal/archives/portable_binary.hpp:120-254 | for every byte order of the writer, of the stream and of the reader, the loaded memory denotes the numbers that were saved and the stream is consumed to its end |
| PortableBinary.SwapBytes | ThirdParty/cereal/archives/portable_binary.hpp:51-57 | the half-way swap loop reverses one element in place and touches nothing else |
| PortableBinary.PortableBinaryOutputArchive.constructor | ThirdParty/cereal/archives/portable_binary.hpp:120-126 | the stream starts with 1 for little-endian and 0 for big-endian order, and bytes are converted exactly when that differs from the machine's |
| PortableBinary.PortableBinaryOutputArchive.SaveBinary | ThirdParty/cereal/archives/portable_binary.hpp:131-147 | the nested loops append the elementwise reversal, the same that loading applies in place |
| PortableBinary.PortableBinaryInputArchive.Open | ThirdParty/cereal/archives/portable_binary.hpp:222-230 | bytes are converted exactly when the first one is not that of the given order, 1 for little-endian and 0 for big-endian; throws when there is none |
| PortableBinary.PortableBinaryInputArchive.LoadBinary | ThirdParty/cereal/archives/portable_binary.hpp:237-254 | fills the buffer from the stream with the bytes of every element reversed in place when the orders differ; throws exactly when the stream is too short |
| SwigNames.TypeNameComp | interfaces/matlab/helicsMEX.cpp:400-409 | zero exactly when the names are equal without their blanks and neither ends in a blank; otherwise the sign is their order without blanks |
| SwigNames.TypeCmp | interfaces/matlab/helicsMEX.cpp:415-428 | zero exactly when some name of the list is the same; otherwise the order of the last name |
| SwigNames.NameIsDelimited | interfaces/matlab/helicsMEX.cpp:418-426 | every name of a list stands between its ends and its bars |
| SwigNames.DelimitedIsName | interfaces/matlab/helicsMEX.cpp:418-426 | every non-empty text without a bar that stands between the ends and the bars is a name of the list |
| SwigCasts.TypeInfo.Promote | interfaces/matlab/helicsMEX.cpp:449-457 | relinking moves the cast to the front, keeps all links in both directions consistent and the others in order |
| SwigCasts.TypeInfo.Unlink | interfaces/matlab/helicsMEX.cpp:451-453 | takes a cast that is not the first out of the list |
| SwigCasts.TypeInfo.PutFirst | interfaces/matlab/helicsMEX.cpp:454-457 | puts a cast that is in no list in front |
| SwigCasts.TypeInfo.Insert | interfaces/matlab/helicsMEX.cpp:11971-11975 | puts a cast of a new module in front |
| SwigCasts.TypeInfo.Check | interfaces/matlab/helicsMEX.cpp:445-463 | the loop returns the first match and leaves it in front of the others |
| SwigCasts.TypeCheck | interfaces/matlab/helicsMEX.cpp:442-464 | a lookup by name returns the first match and brings it to the front; a missing type or no match changes nothing |
| SwigCasts.TypeCheckStruct | interfaces/matlab/helicsMEX.cpp:469-491 | the same for a lookup by type |
| SwigCasts.RunIsRecency | interfaces/matlab/helicsMEX.cpp:442-491 | after any run of lookups the casts returned come first, the latest in front, and all others keep their order |
| SwigCasts.RunAnswers | interfaces/matlab/helicsMEX.cpp:442-491 | after any run of lookups a lookup finds something exactly when the original list holds a match |
| SwigQuery.ModuleInfo.FindMangled | interfaces/matlab/helicsMEX.cpp:583-607 | the binary search returns only a type of that name, and finds one in a sorted table exactly when there is one; its bounds stay inside the table |
| SwigQuery.MangledTypeQueryModule | interfaces/matlab/helicsMEX.cpp:578-612 | over any segment of the circle, up to all of it, a type is found exactly when some module has one of that mangled name |
| SwigQuery.TypeQueryModule | interfaces/matlab/helicsMEX.cpp:623-647 | a type is found exactly when some module has one of that mangled name, or one with a readable name equal up to blanks; mangled names win |
| SwigQuery.ReadableTypeQueryModule | interfaces/matlab/helicsMEX.cpp:632-642 | over any segment a type is found exactly when one has that readable name up to blanks |
| SwigQuery.FindReadable | interfaces/matlab/helicsMEX.cpp:634-638 | the loop over one table finds the first such type |
| SwigInit.InsertCast | interfaces/matlab/helicsMEX.cpp:11937-11978 | one cast is added exactly when the type has none of that name; its target becomes the shared type when the module's own type gets it, and stays the module's when a shared type gets it |
| SwigInit.InsertCasts | interfaces/matlab/helicsMEX.cpp:11935-11978 | a whole row is added so that the list stays linked, has no two casts of one name and has one of every name in the row |
| SwigInit.Resolve | interfaces/matlab/helicsMEX.cpp:11914-11933 | an entry resolves to the type that the other modules have under its name, or else to its own; its client data is what the module brings for it, if that is anything, and otherwise what it had |
| SwigInit.LoadType | interfaces/matlab/helicsMEX.cpp:11907-11980 | one entry is resolved, gets its row of casts and is set in the table, and its type gets the client data that the module brings, if any |
| SwigInit.FillTable | interfaces/matlab/helicsMEX.cpp:11903-11982 | all entries are resolved, all rows added and all client data is merged, each from what there was before the load, and the table ends in null |
| SwigRegistry.FindModule | interfaces/matlab/helicsMEX.cpp:11881-11890 | the walk around the circle ends and finds the module exactly when it is in the circle |
| SwigRegistry.Splice | interfaces/matlab/helicsMEX.cpp:11892-11894 | the circle stays closed with exactly the one module added after the first |
| SwigRegistry.LinkModule | interfaces/matlab/helicsMEX.cpp:11864-11895 | links a module into the circle unless it is there, also as the first; a circle of another interpreter that holds the module stays closed if and only if the module is in this one already or this one is empty |
| SwigRegistry.InitializeModule | interfaces/matlab/helicsMEX.cpp:11858-11982 | keeps the registry: a closed circle, sorted tables, one type per name over all modules, every cast list linked both ways without two casts of one name, all from known types; every entry keeps its name, every row is covered, no cast is lost, and a module that is there changes nothing; an added cast leads to a type of the registry if and only if its type is new or no type of the target's name was there; the type of every entry has the client data that the module brings for it, if any, and otherwise what it had, and no other type changes its data |
| SwigRegistry.CircleBreaks | interfaces/matlab/helicsMEX.cpp:11892-11894 | two modules in one interpreter and a third one in another, which then loads the first: the first circle is broken |
| SwigRegistry.Disagree | interfaces/matlab/helicsMEX.cpp:442-491 | a cast that leads to another type of the same name is found by name and not by type |
| SwigRegistry.CastIsMissed | interfaces/matlab/helicsMEX.cpp:11937-11978 | whenever a module brings a cast between two types that the registry has, to one without casts, it is found by name and not by the registered type |
| SwigRegistry.CastIsMissedExample | interfaces/matlab/helicsMEX.cpp:11937-11978 | such an input: two modules that bring the same two types, the second one with a cast between them |
| SwigPack.PackData | interfaces/matlab/helicsMEX.cpp:652-663 | the loop writes for every byte the digits of its high and its low half, in lower case |
| SwigPack.PackedAt | interfaces/matlab/helicsMEX.cpp:652-663 | the two characters for every byte are the digits of its high and its low half |
| SwigPack.UnpackData | interfaces/matlab/helicsMEX.cpp:668-691 | the loop fills the buffer when all characters are lower-case hexadecimal digits, and fails otherwise |
| SwigPack.PackThenUnpack | interfaces/matlab/helicsMEX.cpp:652-691 | unpacking gives back all packed bytes, whatever follows them |
| SwigPack.UnpackThenPack | interfaces/matlab/helicsMEX.cpp:652-691 | whatever unpacks is the packed form of its bytes |
| ZmqMultipart.MessagesArrive | ThirdParty/cppzmq/zmq_addon.hpp:123-150 | any sequence of messages is received as it was sent, except that empty messages leave no trace |
| ZmqMultipart.ReceiveFrames | ThirdParty/cppzmq/zmq_addon.hpp:123-150 | a non-empty message is received alone, and what follows it stays on the socket |
| ZmqMultipart.FramesOfReceived | ThirdParty/cppzmq/zmq_addon.hpp:123-135 | what is received completely was framed so; what is received incompletely is all there was |
| ZmqMultipart.NothingRefused | ThirdParty/cppzmq/zmq_addon.hpp:138-150 | a socket that refuses nothing takes all parts |
| ZmqMultipart.Multipart.Recv | ThirdParty/cppzmq/zmq_addon.hpp:123-135 | the loop takes frames up to one without the flag for more; an incomplete message is kept and reported |
| ZmqMultipart.Multipart.Send | ThirdParty/cppzmq/zmq_addon.hpp:138-150 | the loop sends the parts up to the first refusal; the part refused is gone and those after it are kept |
| ZmqMultipart.Multipart.Prepend | ThirdParty/cppzmq/zmq_addon.hpp:153-157 | this becomes the other followed by this, and the other is emptied |
| ZmqMultipart.Multipart.Append | ThirdParty/cppzmq/zmq_addon.hpp:160-164 | this becomes this followed by the other, and the other is emptied |
| ZmqMultipart.Multipart.Push | ThirdParty/cppzmq/zmq_addon.hpp:207 | adds a part in front |
| ZmqMultipart.Multipart.Add | ThirdParty/cppzmq/zmq_addon.hpp:210 | adds a part at the end |
| ZmqMultipart.Multipart.Pop | ThirdParty/cppzmq/zmq_addon.hpp:233-239 | takes the first part |
| ZmqMultipart.Multipart.Remove | ThirdParty/cppzmq/zmq_addon.hpp:241-247 | takes the last part |
| ZmqMultipart.Multipart.Clone | ThirdParty/cppzmq/zmq_addon.hpp:291-298 | a new message with the same parts |
| ZmqMultipart.Multipart.Equal | ThirdParty/cppzmq/zmq_addon.hpp:333-342 | true exactly when the parts are the same |
| ZmqPoller.ActivePoller.Add | ThirdParty/cppzmq/zmq_addon.hpp:372-391 | keeps the invariant; on success exactly this socket is new, with its events and handler; when the library refuses, or the socket is there, handlers, flag and registrations are as before |
| ZmqPoller.ActivePoller.Remove | ThirdParty/cppzmq/zmq_addon.hpp:393-398 | keeps the invariant; on success exactly this socket is gone; when the library refuses everything is as before |
| ZmqPoller.ActivePoller.Modify | ThirdParty/cppzmq/zmq_addon.hpp:400-403 | succeeds exactly for a registered socket when the library does not fail; then the events of this socket change, and nothing else in any case |
| ZmqPoller.ActivePoller.Rebuild | ThirdParty/cppzmq/zmq_addon.hpp:407-415 | afterwards the cache holds every registered handler exactly once, with one slot for each |
| ZmqPoller.ActivePoller.Wait | ThirdParty/cppzmq/zmq_addon.hpp:405-424 | no ready socket is left out, exactly the callable handlers of the ready sockets are called in order, and every handler called is still held although handlers that ran before may have removed it; afterwards the poller has the sockets that the changes made by those handlers leave, one after the other |
| ZmqPoller.ActivePoller.Dispatch | ThirdParty/cppzmq/zmq_addon.hpp:416-422 | the calls follow the events, and the changes that the handlers called make are all applied, in order and each with its own fault |
| ZmqPoller.ActivePoller.Report | ThirdParty/cppzmq/zmq_addon.hpp:416-416 | all sockets that are ready are reported, with handlers that are in the cache |
| ZmqPoller.BasePoller.Add | ThirdParty/cppzmq/zmq.hpp:1129-1136 | refuses a socket that is registered, and may fail by itself; a failure changes nothing |
| ZmqPoller.BasePoller.Remove | ThirdParty/cppzmq/zmq.hpp:1138-1143 | refuses a socket that is not registered, and may fail by itself; a failure changes nothing |
| ZmqPoller.BasePoller.Modify | ThirdParty/cppzmq/zmq.hpp:1145-1152 | changes the events of a registered socket and nothing else, and may fail by itself |
| ZmqPoller.BasePoller.WaitAll | ThirdParty/cppzmq/zmq.hpp:1154-1171 | reports as many of the ready sockets as there are slots, each with what it was registered with |
| TimeDependencies.Dependencies.LowerBound | src/helics/core/TimeDependencies.cpp:120-131 | the halving search finds the first federate that is not below the given one |
| TimeDependencies.Dependencies.IsDependency | src/helics/core/TimeDependencies.cpp:123-131 | true exactly for the federates of the table |
| TimeDependencies.Dependencies.GetDependencyInfo | src/helics/core/TimeDependencies.cpp:133-142 | gives the entry of a federate exactly when the table has one |
| TimeDependencies.Dependencies.AddDependency | src/helics/core/TimeDependencies.cpp:155-178 | adds one fresh entry exactly when there is none, and keeps all others and the order |
| TimeDependencies.Dependencies.RemoveDependency | src/helics/core/TimeDependencies.cpp:180-190 | removes the entries of that federate and no other, and keeps the order |
| TimeDependencies.Dependencies.UpdateTime | src/helics/core/TimeDependencies.cpp:16-113 | only the entry of the sender takes the message, and the result says whether that changed it |
| TimeDependencies.ProcessTells | src/helics/core/TimeDependencies.cpp:16-113 | a message counts as a change if and only if it is a timing message or moves a time of the dependency |
| TimeDependencies.SentIsSeen | src/helics/core/TimeDependencies.cpp:52-113 | a message that a federate is known to send lowers the event of its next request if it was granted a time, and its scheduled event at once otherwise, down to its next possible event |
| TimeDependencies.Dependencies.CheckIfReadyForTimeGrant | src/helics/core/TimeDependencies.cpp:235-269 | true exactly when no dependency is behind, or at the time and still acting |
| TimeDependencies.Dependencies.ResetIteratingTimeRequests | src/helics/core/TimeDependencies.cpp:271-285 | the loop resets exactly the iterative requests for that time |
| TimeDependencies.Dependencies.ResetDependentEvents | src/helics/core/TimeDependencies.cpp:287-294 | the loop resets the scheduled events of all entries |
| TimeCoordinator.Coordinator.constructor | src/helics/core/TimeCoordinator.hpp:52-71 | the state of a federate that has entered execution mode |
| TimeCoordinator.Coordinator.GenerateAllowedTime | src/helics/core/TimeCoordinator.cpp:272-293 | computes the rounding that `AllowedIsLeast` is about |
| TimeCoordinator.Coordinator.GetNextPossibleTime | src/helics/core/TimeCoordinator.cpp:245-270 | computes the time that `NextIsLeast` is about, also where a loop adds periods |
| TimeCoordinator.Coordinator.UpdateNextExecutionTime | src/helics/core/TimeCoordinator.cpp:148-174 | sets the time to execute at and nothing else, and says whether it changed |
| TimeCoordinator.Coordinator.UpdateNextPossibleEventTime | src/helics/core/TimeCoordinator.cpp:176-202 | sets the next possible event and nothing else |
| TimeCoordinator.Coordinator.CollectFactors | src/helics/core/TimeCoordinator.cpp:337-366 | the loop over the dependencies finds the three least times, or distrusts the second |
| TimeCoordinator.Coordinator.UpdateTimeFactors | src/helics/core/TimeCoordinator.cpp:335-396 | the new state is that of the specification, and the result says whether dependents must know |
| TimeCoordinator.Coordinator.TimeRequest | src/helics/core/TimeCoordinator.cpp:106-146 | the whole new state and what is sent, as the theorems about requests use them |
| TimeCoordinator.Coordinator.SendTimeRequest | src/helics/core/TimeCoordinator.cpp:464-480 | sends the next possible and the scheduled event, and the later of it and those of the dependencies |
| TimeCoordinator.Coordinator.UpdateValueTime | src/helics/core/TimeCoordinator.cpp:204-241 | the whole new state and what is sent when a value arrives |
| TimeCoordinator.Coordinator.UpdateMessageTime | src/helics/core/TimeCoordinator.cpp:295-333 | the whole new state and what is sent when a message arrives |
| TimeCoordinator.Coordinator.UpdateTimeGrant | src/helics/core/TimeCoordinator.cpp:482-499 | the time to execute at becomes the granted time and is sent |
| TimeCoordinator.Coordinator.CheckTimeGrant | src/helics/core/TimeCoordinator.cpp:398-462 | verdict, new state and what is sent agree with the specification, whose two branches for iteration are one |
| TimeCoordinator.Coordinator.ProcessTimeMessage | src/helics/core/TimeCoordinator.cpp:661-729 | a grant is put off exactly when its sender is known to wait for a later time; otherwise the table takes the message |
| TimeGrants.GrantIsAllowed | src/helics/core/TimeCoordinator.cpp:413-454 | no grant is beyond the next time of any dependency, once input is delayed |
| TimeGrants.GrantedIfAllowed | src/helics/core/TimeCoordinator.cpp:413-454 | the time to execute at is granted if and only if it is not blocked and before all that the dependencies can still send, with their delay, or just at its start for a federate that asked for no later time or whose dependencies are done with that time; a federate halts if and only if it waits for the end of time and nothing that is still to come can be noticed before that |
| TimeGrants.VerdictTells | src/helics/core/TimeCoordinator.cpp:413-462 | a grant is called an iteration if and only if time does not move on |
| TimeGrants.NextIsLater | src/helics/core/TimeCoordinator.cpp:245-270 | the next possible time is at least the smallest time step away |
| TimeGrants.NextIsLeast | src/helics/core/TimeCoordinator.cpp:245-270 | the next possible time is the least whole number of periods after the last grant that is a time step away, and at the start the offset or the first of its later periods |
| TimeGrants.AllowedIsLeast | src/helics/core/TimeCoordinator.cpp:272-293 | with a period, a time is rounded up to the last grant plus n periods for some n of 1 or more, and no smaller such time is not before it |
| TimeGrants.RunKeeps | docs/user-guide/helics_co-sim_sequence.md:78 | in every run of a federate, granted times never go back |
| TimeGrants.TimeDeltaIsKept | docs/configuration/Timing.md:28-34 | whatever happens until the next request, the granted time stays or moves on by at least the smallest time step |
| TimeGrants.EarlierMeansNews | docs/user-guide/timing.md:8 | without news, a federate is granted the time it asked for, or with a period the least whole number of periods after its last grant that is not before it, and no other |
| TimeGrants.WholePeriodsAreGranted | docs/configuration/Timing.md:13-17 | without news, a federate that asks for whole periods after its last grant is granted exactly that time |
| TimeGrants.GrantedForNews | docs/user-guide/timing.md:8 | whatever arrives after the request, an interruptible federate is granted the earlier of the time it asked for and the time at which it notices the earliest data, rounded up to the least whole number of periods |
| TimeGrants.PeriodAndOffset | docs/configuration/Timing.md:13-26 | in every run, granted times are whole periods, and whole periods plus the offset if and only if the offset is whole periods |
| TimeGrants.OffsetIsLost | docs/configuration/Timing.md:19-23 | a federate with period 10 and offset 3 that asks for time 3 is granted time 10 |
| TimeGrants.UninterruptibleGrant | docs/user-guide/timing.md:29 | whatever arrives until its next request, an uninterruptible federate is granted the time it asked for or, if that is later, the next possible one; it is whole periods exactly when the later of the two is |
| TimeGrants.PeriodIsLost | docs/configuration/Timing.md:13-17 | an uninterruptible federate with period 10 that asks for time 13 is granted time 13 |
| TimeGrants.UninterruptibleOnPeriods | docs/configuration/Timing.md:13-26 | an uninterruptible federate with a period that asks for whole periods only is granted such in every run if and only if its offset is whole periods |
| TimePromises.EventBelow | src/helics/core/TimeCoordinator.cpp:176-202 | the next possible event that a federate names is not after its reaction to data of a time at which its dependencies can still act |
| TimePromises.EventFrom | src/helics/core/TimeCoordinator.cpp:176-202 | nor is it lower than it must be: not before the earliest event that is known of can be noticed, unless the federate executes earlier; if none is known of it is the next possible time; and the earliest event of the dependencies that it passes on is not before what is known of, with its own delay |
| TimePromises.EventIsTold | src/helics/core/TimeCoordinator.cpp:464-480 | the scheduled event that a waiting federate tells its dependents is exactly the time of the data that it sends once it is granted that event |
| TimePromises.ArrivalIsReactedTo | src/helics/core/TimeCoordinator.cpp:295-333 | a value or message makes a waiting interruptible federate execute at its reaction to it or at the time it would execute anyway, whichever is earlier, and dependents are told exactly if that changes |
| TimePromises.AskHonest | src/helics/core/TimeCoordinator.cpp:106-146 | a request keeps all earlier promises of a federate whose dependencies keep theirs, and what it says is one more: firm federates promise their scheduled event, those that depend on such only the earlier of their event and those of their dependencies, and the next rank its next time only |
| TimePromises.LookHonest | src/helics/core/TimeCoordinator.cpp:398-462 | so does a look at whether the time can be granted |
| TimePromises.DataHonest | src/helics/core/TimeCoordinator.cpp:204-241 | so does data that is not older than was heard of its sender |
| TimePromises.HearHonest | src/helics/core/TimeDependencies.cpp:37-78 | a message of a federate of lower rank takes back no promise |
| TimeNetwork.InitialIsSafe | src/helics/core/TimeCoordinator.cpp:629-639 | the invariant holds when execution starts |
| TimeNetwork.ApplyKeeps | src/helics/core/FederateState.cpp:1073-1126 | every request, publication and delivery keeps the invariant of the whole network |
| TimeNetwork.NoOneRunsAhead | docs/user-guide/helics_co-sim_sequence.md:78 | in every run of every network in which each federate that others depend on is uninterruptible or without dependencies, depends on such only, or depends only on federates of these two kinds of which the second do not iterate: no federate is granted a time after that of data which can still be sent to it, and all data under way comes in time |
| TimeOvertaking.FiveAreOvertaken | src/helics/core/TimeCoordinator.cpp:335-396 | three interruptible federates in a row between any two others, anywhere in a network of that shape, have a run without iteration that ends with data too old for the last one |
| TimeOvertaking.FourAreOvertaken | src/helics/core/TimeCoordinator.cpp:335-396 | with iteration two are enough |
| TimePipeline.LineInTime | docs/user-guide/helics_co-sim_sequence.md:78 | in a line of federates of any length, data always comes in time if and only if no two interruptible ones follow each other between others |
| TimePipeline.LineInTimeWithoutIteration | docs/user-guide/helics_co-sim_sequence.md:78 | in runs without iteration it does if and only if no three follow each other |
| TimeLoop.LoopIsOvertaken | src/helics/core/TimeCoordinator.cpp:335-396 | two interruptible federates that depend on each other have a run without iteration that ends with data of time 2 on its way to one that was granted time 3 |
| TimeLoop.LoopInTime | docs/user-guide/helics_co-sim_sequence.md:78 | data always comes in time between two federates that depend on each other if and only if one of them is uninterruptible, and the same holds of runs without iteration |
| TimeProgress.StuckAtTheEnd | src/helics/core/TimeCoordinator.cpp:398-462 | for two federates without iteration, in every state that a run can reach: if nobody can do anything, an interruptible one waits for data only, and some request was for the end of time |
| TimeProgress.FirmIsNotStuck | src/helics/core/TimeCoordinator.cpp:398-462 | two uninterruptible federates, which may iterate, can go on in every state that a run can reach |
| TimeStandstill.ComesToStandstill | src/helics/core/TimeCoordinator.cpp:411-414 | an interruptible federate and any other one come to a standstill in a run without iteration, and in a run with requests up to time 2 only |
| TimeStandstill.StandstillOfData | src/helics/core/TimeCoordinator.cpp:398-462 | a standstill after a run without iteration needs a request for the end of time and an interruptible federate that waits for data only |
| TimeStandstill.LoopGoesOn | src/helics/core/TimeCoordinator.cpp:398-462 | two federates that depend on each other can always go on if and only if both are uninterruptible, in all runs, in those without iteration and in those with requests before the end of time; without iteration and with such requests they always can |
| TimeAcyclic.AcyclicGoesOn | src/helics/core/TimeCoordinator.cpp:398-462 | in every run of every network without cycles, whatever the options and with iteration or without, somebody can go on as long as anybody waits for a time on the clock |
| TimeAcyclic.LineGoesOn | src/helics/core/TimeCoordinator.cpp:398-462 | a line of federates of any length never comes to a standstill |

## Left out

- Conversion of doubles and times, for which the format of the C++ library decides: they are parameters.
- Of TOML values: comparison with `==`, size, type tests, and reading a number as another kind of number.
- Files and streams: an input is a text with a position, an output a text that grows. Streams that refuse to be written to are not modelled.
- Merging a value into itself, or into a part of itself: values have no addresses in the model, so the test for the same object is the case of equal values in `TomlMerge.MergeTwice`.
- TomlRoundTrip.RoundTrip: documents hold booleans, integers, strings, arrays of these, tables and non-empty groups of tables, because doubles and times are parameters and a printed empty group is an empty array.
- TomlForms.FormReads: a comment in an array stands on a line of its own or after a comma, keys are escaped as they are printed, and a time is a text of digits and of the characters between them that is no number.
- TomlMerge.MergeExactly: no key of the merged table reads as the path of another one; a single entry may have such a key (`TomlMerge.MergeOneStraightEntry`), and how tables with such keys further down merge is left to the recursion in `TomlMerge.MergeOneEntry`.
- cereal's compile-time dispatch, unique and weak pointers, objects built by user functions, deferred data, virtual base classes, and the text archives.
- CerealRoundTrip.GraphRoundTrip: fewer than 2^31 objects and 2^30 classes, because ids carry tags in their upper bits; `CerealRoundTrip.RepeatedId` shows what happens beyond.
- PortableBinary.PortableBinaryOutputArchive.SaveBinary: whole elements only, as its callers pass, and a stream that takes all bytes.
- PortableBinary.Portable: the reader's order is that of its machine, which is the default of its options.
- CerealPortable.GraphIsPortable: all numbers and lengths take eight bytes, and the reader asks for elements of the sizes that were written, which the source takes from the types of the members.
- SwigNames.TypeCmp: a list with a name that ends in a blank is compared only with a name that does not and holds no bar, because the comparison runs past its ends otherwise.
- SwigQuery.ModuleInfo.FindMangled: the guard for a missing name in a table, which its own comment calls impossible, is not modelled.
- SwigNames.TypeNameComp: characters are ordered as unsigned, while a C++ `char` may be signed; names with characters above 127 can be ordered differently then, but the same names are equal.
- SwigRegistry.InitializeModule: a module that is in the circle of another interpreter is followed through linking, which breaks that circle; searches that run on the broken circle are not modelled.
- Conversion functions of casts, dynamic casts, client data of whole hierarchies and all wrappers around HELICS calls in the bindings: generated glue.
- Of multipart messages: parts that are read and written as numbers or strings, and printing a message as text.
- A handler that waits on its own poller while it is called.
- TimeNetwork.NoOneRunsAhead: a sufficient condition on networks of any shape; `TimePipeline` and `TimeLoop` show that lines and pairs outside of it fail, and which other networks are safe is not decided. It starts after all federates have entered execution mode.
- TimePipeline.LineInTime: all federates have the default options apart from being uninterruptible.
- TimePipeline.LineInTimeWithoutIteration: all federates have the default options apart from being uninterruptible.
- TimeLoop.LoopInTime: both federates have the default options apart from being uninterruptible.
- TimeStandstill.LoopGoesOn: both federates have the default options apart from being uninterruptible; which larger networks with cycles can come to a standstill is not decided. A standstill is a state without any possible step; that a step is taken at last is up to the scheduling of messages.
- TimeAcyclic.AcyclicGoesOn: a federate that would execute after the last time of the clock is left out, because sums of times do not overflow in the model.
- TimeCoordinator.Coordinator.GenerateAllowedTime: the number of periods is exact, while the source divides floating-point numbers and casts the quotient to `int`; a request of 2^31 periods or more ahead is beyond the model, and `TimeGrants.NextIsLater` and `TimeGrants.RunKeeps` are about shorter ones.
- TimeCoordinator.Coordinator.ProcessTimeMessage: requests, grants and disconnections; blocks of time, forced grants and dropping a dependent that disconnects are not modelled.
- Time coordinator: entering execution mode with its iterations, blocks of time by messages, forced and real-time grants, configuration messages, counters of iterations, that a halted federate also tells those it depends on, and overflow of 64-bit times.
- Messages to endpoints in a network: `TimeCoordinator.Coordinator.UpdateMessageTime` treats them as values are treated, but networks carry values only.
- The brokers, cores and application layer of HELICS, which pass the messages on.
