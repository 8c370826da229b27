# A verified model of the MySQL plugin

A Dafny model of the hard parts of the MySQL plugin for SA-MP: the splitter for SQL files, the life of a query across
threads, the transaction executor, the packing of results, the ORM, the handles' caches and `mysql_format`. Code that
updates things step by step is a method or a class here, proved against functions and predicates that say what it is
for; the threads are a step system whose invariants hold over every run.

Verify everything with `dafny verify dfyconfig.toml`.

## Modules

- `SqlLexer`, `SqlSplitter`, `SqlTheorems`: SQL text as a lexical grammar (MySQL 8.0 Reference Manual, sections 11.1.1
  and 11.7, as far as the splitter honours them), the mode machine of `ParseQueries` against it, and the laws of
  splitting: concatenation, printing, parsing again. `SqlCases`: what becomes of each kind of input, character by
  character.
- `OrmSql`, `OrmObject`, `Orm`: quoting, the queries an ORM generates, read back with the splitter's own lexer, and the
  object with its variables, key, lifetime and the two ways of applying a result. `OrmReading`: every generated query
  read back in full, with the values of the variables.
- `Transaction`: the three ways of executing a query, against a server seen through the connector's calls, and what the
  commands of a transaction do to the data. A connection remembers the result sets that are still unread, and refuses
  every command while there are some.
- `Session`: the worker's queries one after another on one connection, and what is durable at any time.
- `Packing`: the block that holds a result's rows, written by both packers, and the lookups in it.
- `Lifecycle` (states and steps), `LifecycleHandles`, `LifecycleTokens`, `LifecyclePlaces`, `LifecycleCounter`,
  `LifecycleOrder`, `LifecycleEndings` (what every run keeps), `LifecycleService` (which queries are served),
  `LifecycleMemory` (when a run touches the memory of a script that has ended), `LifecycleTick`, `LifecycleWorker`,
  `LifecycleClose` (the tick, a worker and `mysql_close` go on to their ends): queries, workers, scripts, ORMs with
  their variables, handles and `mysql_close` in every interleaving. A weak pointer is a token that is never used
  twice; addresses of handles and ORMs may be used again. A step that would touch an object after its deletion, or
  delete one twice, sets `fault`; one that touches a variable of a script that has ended sets `stray`, and ends the
  run.
- `Callbacks`: a callback's parameters on their way into the script.
- `Queues`: `ClearByHandle` and the connection's destructor as loops over their queues, and the rotation of the pool.
- `HandleCache`, `IdSearch`: active and saved results of several handles, and the search for an unused id.
- `Format`: `mysql_format`. `FormatReading`: what it writes, read back as numbers, floats and quoted strings.
- `Misc`: numbers as text. `Wrappers`, `Collections`: an option type, and the elements of a sequence.

## Findings

- Splitting is not idempotent for every accepted input. A comment between `--` and what follows is printed as white
  space, and then the `--` reads as a comment: `--/**/2` splits into `--  2`, which splits into nothing.
  `SqlTheorems.ReparseExactly` gives the exact condition.
- A transaction that stops at a result set that cannot be stored, with more result sets to come, sends ROLLBACK while
  those are still unread; the connector refuses it as out of sync, and every later command on that connection too. The
  transaction stays open, nothing of it and nothing after it becomes durable (`Session.Work`, `Session.BlockedForGood`;
  `Session.BlockedWork` is such a session).
- A ROLLBACK that the server itself refuses leaves the transaction open as well, but then the next START commits its
  partial work: `Session.PartialWork` runs two transactions of which the first fails and yet becomes durable in part.
  `Session.PromiseExactly` gives the exact condition on the server's replies, over whole sessions.
- Any script can bind its variables to any ORM, but only the end of the ORM's owner destroys the ORM and cancels its
  queries. After the end of another script, the ORM reads and writes that script's former memory: at the next native
  (`LifecycleMemory.ForeignStrays`, and from the beginning `LifecycleMemory.ForeignRun`), or when a pending SELECT is
  applied (`LifecycleMemory.PendingStrays`). `LifecycleMemory.StraysExactly` and `LifecycleMemory.ForeignExactly` say
  when, `LifecycleMemory.OwnersNeverStray` that owners' variables are safe.
- Applying a result by position writes NULL to a string variable as the text `NULL`; applying it by name leaves the
  variable as it was (`Orm.ApplyAgreeExactly`).
- The id search can yield 0, which elsewhere means no object, exactly if 4294967295 is in use and 0 is not
  (`IdSearch.ZeroFound`).
- `mysql_format` leaves out an argument that does not fit. The unit test test_scripts/unit_test.pwn:275-292 expects it
  to be cut instead; the model follows the code. `Format.ArgumentIsCutExactly`: for `%s`, the two are the same exactly
  if the argument fits, or there is room for the terminator only.
- A float with a precision is checked against the buffer by the length of the library's text, not by that of what is
  written: nine digits of 1.5 write 11 characters where 3 were checked (`Format.NineDigitsOverrun`).
  `Format.CoveredExactly` says for which formats and arguments the check is enough.
- `%b` of -2147483648 writes 33 characters and a terminator into a local buffer of 33; no other number overruns the
  buffer of any conversion (`Format.NumbersFitExactly`).

## Model

| member | source | states |
|---|---|---|
| SqlLexer.LexUnique | src/SqlInput.h:44-93 | The lexical grammar is lossless and unambiguous: a token list is the lexing of a text exactly if it is the chain of elements whose texts make up that text. |
| SqlLexer.LexFails | src/SqlInput.h:94 | Lexing fails exactly if, after some complete elements, a quote or a block comment is opened and never closed. |
| SqlLexer.CommentEndIsFirst | src/SqlInput.h:56-61 | A block comment ends at its first close. |
| SqlLexer.FirstShape | src/SqlInput.h:64-92 | The first element of a text is a prefix of it, has the shape of its kind, and is compatible with the lookahead behind it. |
| SqlLexer.LexChain | src/SqlInput.h:44-93 | A chain of complete elements in front of any text lexes to these elements, followed by those of that text. |
| SqlSplitter.TrimEmits | src/SqlInput.h:13-18 | Trimming the emitted text of a statement is emitting its tokens without blank ones at either end. |
| SqlSplitter.NormalTurn | src/SqlInput.h:75-92 | One turn in normal mode moves exactly as the grammar's next element demands, with up to three characters of lookahead. |
| SqlSplitter.QuoteTurn | src/SqlInput.h:64-74 | One turn inside a quote keeps the outcome, with backslash and doubled-quote escapes. |
| SqlSplitter.QuoteAdvances | src/SqlInput.h:67 | The test of the next character for NUL after a backslash changes nothing that the grammar can see. |
| SqlSplitter.BlockTurn | src/SqlInput.h:53-63 | One turn inside a block comment keeps the outcome: kept comments byte for byte, others as white space. |
| SqlSplitter.LineTurn | src/SqlInput.h:48-52 | One turn inside a line comment keeps the outcome. |
| SqlSplitter.PiecesAreTexts | src/SqlInput.h:87-91 | Cutting the running text at each semicolon gives the texts of the statements between top-level terminators. |
| SqlSplitter.ParseQueries | src/SqlInput.h:36-104 | The loop computes the reference `Parse` for every input: it accepts exactly what the grammar accepts without DELIMITER directives, returns the statements, and returns no statements when it rejects. |
| SqlSplitter.FindDirective | src/SqlInput.h:96-102 | Finds a DELIMITER directive exactly if some statement is one. |
| SqlTheorems.ParseConcat | src/SqlInput.h:44-103 | If a text ends at a top-level terminator, it and any text behind it are accepted exactly if both are, and the statements are those of the one followed by those of the other. |
| SqlTheorems.WellFormedTerminated | src/SqlInput.h:87-95 | A text that parses to itself alone and ends in a semicolon ends at a top-level terminator. |
| SqlTheorems.PrintParse | src/SqlInput.h:44-103 | Printing any list of well-formed terminated statements and parsing the result gives the list back. |
| SqlTheorems.ReparseExactly | src/SqlInput.h:48-95 | Parsing the emitted statements again gives the same statements exactly if no `--` stands before a dropped comment, or at the end of an unterminated last statement. |
| SqlTheorems.ReparseCanDiffer | src/SqlInput.h:76-86 | An input for which parsing again gives something else. |
| SqlTheorems.NothingLost | src/SqlInput.h:44-95 | Every quoted text, kept comment and solid character of an accepted input is in exactly one statement, in order; only white space, dropped comments and the cuts themselves are not. |
| SqlCases.ExecutableKept | src/SqlInput.h:81-86 | `/*!`, `/*+` and `/*M!` with anything up to its first close is, before a terminator, a statement of its own, byte for byte. |
| SqlCases.OtherDropped | src/SqlInput.h:53-63 | Any other block comment before a terminator is no statement. |
| SqlCases.ExecutableKeptInside | src/SqlInput.h:79-91 | The same between any accepted text that ends at a top-level terminator and any accepted text. |
| SqlCases.OtherDroppedInside | src/SqlInput.h:79-91 | So is the comment that is dropped. |
| SqlCases.CommentBetween | src/SqlInput.h:48-63 | Between two texts, a dropped block comment becomes two blanks, a line comment a blank and its newline, and a kept comment stays. |
| SqlCases.LineDropped | src/SqlInput.h:76-78 | `#`, and `--` before white space, make a comment up to the newline, whatever is in it. |
| SqlCases.DashesKept | src/SqlInput.h:76-78 | `--` before anything else is no comment. |
| SqlCases.QuotedKept | src/SqlInput.h:64-75 | A quoted text that decodes, by the rules for string literals, is a statement of its own, byte for byte. |
| SqlCases.QuoteInside | src/SqlInput.h:67-72 | In particular a doubled quote may stand inside, and a backslash with any character after it, which between backticks is nothing special. |
| SqlCases.PlainKept | src/SqlInput.h:87-92 | A text without special characters is a statement of its own. |
| SqlCases.BlanksTrimmed | src/SqlInput.h:13-18 | Blanks, tabs, carriage returns and newlines around a statement are no part of it. |
| SqlCases.DirectiveRefused | src/SqlInput.h:96-102 | DELIMITER, in upper and lower case, makes the text be refused. |
| SqlCases.UnclosedQuoteRefused | src/SqlInput.h:94 | A text that opens a quote and does not close it is refused. |
| SqlCases.UnclosedCommentRefused | src/SqlInput.h:94 | So is one that opens a block comment and does not close it. |
| OrmSql.QuoteBodyDecodes | src/COrm.cpp:25-33 | Decoding a quoted identifier gives the name, whatever characters it has. |
| OrmSql.EscapeDecodes | src/CMySQLConnection.cpp:157-174 | The escape call's text decodes to the original string: the contract asked of the connector is satisfiable by its documented escapes. |
| OrmSql.DecodesThenCloses | src/SqlInput.h:64-75 | A quoted body that decodes closes nowhere before its end for the splitter. |
| OrmSql.PiecesDecode | src/SqlInput.h:64-75 | Lexing printed pieces and decoding the quoted ones gives the quoted names and strings in order. |
| OrmSql.OneStatement | src/SqlInput.h:36-104 | A query printed from well-spaced pieces is one statement, unchanged. |
| OrmObject.SelectReads | src/COrm.cpp:196-209 | Every generated SELECT is one unchanged statement, and its quoted parts decode to the columns, the table, the key and the key's string. |
| OrmObject.UpdateReads | src/COrm.cpp:244-258 | The same for every generated UPDATE, with its columns and strings interleaved. |
| OrmObject.InsertReads | src/COrm.cpp:260-277 | The same for every generated INSERT. |
| OrmObject.DeleteReads | src/COrm.cpp:298-305 | The same for every generated DELETE. |
| OrmReading.SelectReadsAll | src/COrm.cpp:196-209 | Read back in full, the SELECT is its keywords, the columns with commas between them, the table, and the key with the value that stands in its cells: a number as a signed decimal, a string as a quoted text. |
| OrmReading.UpdateReadsAll | src/COrm.cpp:244-258 | The same for the UPDATE, with every variable set to the value in its cells. |
| OrmReading.InsertReadsAll | src/COrm.cpp:260-277 | The same for the INSERT, with the values in the order of the columns, a key that is a string last. |
| OrmReading.DeleteReadsAll | src/COrm.cpp:298-305 | The same for the DELETE. |
| OrmReading.QueriesExist | src/COrm.cpp:52-77 | Each query exists exactly if what it needs is bound and has a value: an integer always, a float that is finite, a string with room while the connection escapes. |
| Orm.UpdateText | src/COrm.cpp:244-258 | The text of the UPDATE of one number, to the character. |
| Orm.QuoteIdentifier | src/COrm.cpp:25-33 | The loop gives the quoted form that decodes to the name. |
| Orm.COrm.GetVariableValue | src/COrm.cpp:52-77 | Gives the printed literal of a variable, or fails, as the pieces of the queries use it. |
| Orm.COrm.GenerateSelectQuery | src/COrm.cpp:196-209 | The loop succeeds exactly if the object has a key and variables and the key's value can be read, and prints the SELECT's pieces. |
| Orm.COrm.GenerateUpdateQuery | src/COrm.cpp:244-258 | The same for UPDATE. |
| Orm.COrm.GenerateInsertQuery | src/COrm.cpp:260-277 | The same for INSERT. |
| Orm.COrm.GenerateDeleteQuery | src/COrm.cpp:298-305 | The same for DELETE. |
| Orm.COrm.GenerateSaveQuery | src/COrm.cpp:307-315 | Saves by UPDATE exactly if the key is set, and otherwise by INSERT. |
| Orm.COrm.AddVariable | src/COrm.cpp:317-341 | Adds a variable at the end exactly if no bound variable and no key has its name; names stay distinct, and success means a new lifetime. |
| Orm.COrm.RemoveVariable | src/COrm.cpp:343-368 | Removes the key or the one variable of that name; the others keep their order; success means a new lifetime. |
| Orm.COrm.SetVariableAsKey | src/COrm.cpp:370-400 | Succeeds exactly if some bound variable of that name can be a key; only permutes the bound variables and the key; success means a new lifetime. |
| Orm.KeyMoves | src/COrm.cpp:389-393 | Moving a variable to the key and the former key to the end keeps names distinct and loses no variable. |
| Orm.COrm.ApplySelectResult | src/COrm.cpp:211-242 | Applies a one-row result of matching width by position, and otherwise only sets the error. |
| Orm.COrm.ApplyActiveResult | src/COrm.cpp:121-194 | Applies a row by name to the variables and the key. |
| Orm.COrm.ApplyInsertResult | src/COrm.cpp:279-296 | Stores the insert id in an integer key. |
| Orm.ApplyAgree | src/COrm.cpp:121-242 | For a row of the object's own SELECT without NULL in a string column, applying by position and by name leave the same memory. |
| Orm.ApplyAgreeExactly | src/COrm.cpp:121-242 | For variables that share no cells, the two ways leave the same memory, whatever it held before, exactly for the rows without NULL in a string column. |
| Orm.ApplyDiffersOnNull | src/COrm.cpp:144-242 | With NULL in a string column they differ, unless the variable already begins as the text NULL does. |
| Orm.PositionalTakes | src/COrm.cpp:211-242 | After applying a row by position, an integer is what its column converts to, a float likewise, a string its column cut to fit, and NULL the text NULL in a string; what does not convert leaves a number as it was. |
| Orm.NamedAllTakes | src/COrm.cpp:121-194 | After applying by name, the same for every variable and the key, with the first column of its name; without one, or with NULL, it is as it was. |
| Orm.LookupFirst | src/CMySQLResult.cpp:43-75 | The first column of a name counts. |
| Orm.WriteThenRead | src/COrm.cpp:55-63 | A string written to a variable is read back from it, cut to fit. |
| Transaction.Query.ExecuteTransaction | src/CMySQLQuery.cpp:181-259 | On any connection, in sync or not: the commands sent are one contiguous run: START, a prefix of the queries, and COMMIT, ROLLBACK, or a refused COMMIT and ROLLBACK; true exactly if COMMIT succeeded; the connection is in sync afterwards exactly if it was before and no unread result sets blocked the ROLLBACK; totals and one decrement of the counter. After a failure OnQueryError gets error number, error text, former callback, failing command and handle id: the command is START TRANSACTION, the first query that is refused or has a result set that fails, or COMMIT, and the error is that of the refusal or of the first such set. |
| Transaction.Query.DrainSets | src/CMySQLQuery.cpp:214-230 | Reads the result sets of a statement up to the first failure, and tells what is left unread. |
| Transaction.Query.RunStatements | src/CMySQLQuery.cpp:202-231 | Sends the queries in order up to the first that fails, with the modular sum of the rows and the last non-zero insert id. |
| Transaction.AllOrNothing | src/CMySQLQuery.cpp:181-259 | On a connection with no open transaction, a run makes all its queries durable or none, and leaves a transaction open exactly if its ROLLBACK was refused. |
| Transaction.BlockedExactly | src/CMySQLQuery.cpp:214-244 | The ROLLBACK of a failed run is blocked exactly if the run fails at a result set that could not be stored, with more to come. |
| Transaction.AffectedAppend | src/CMySQLQuery.cpp:209 | The total of affected rows is a sum modulo 2^64, however the statements are grouped. |
| Transaction.InsertIdAppend | src/CMySQLQuery.cpp:210-212 | The last insert id that is not zero counts. |
| Transaction.TotalsOfOne | src/CMySQLQuery.cpp:209-212 | One statement contributes what the connector reports of it. |
| Transaction.Query.ExecuteText | src/CMySQLQuery.cpp:364-445 | A plain query: stores a result only if someone can use it, turns an error into OnQueryError, drops the callback if the set is missing, reads all further result sets, and counts the query off once on every path. |
| Transaction.Query.ExecutePrepared | src/CMySQLQuery.cpp:261-355 | A prepared query succeeds exactly if none of its calls fails, reports the first that does, sends one command at most, and counts the query off once on every path. |
| Transaction.Query.Execute | src/CMySQLQuery.cpp:357-362 | Whatever its kind, a query leaves one job in the log; out of sync, none of its commands reaches the server; a transaction blocked by result sets puts the connection out of sync. |
| Session.Work | src/CMySQLConnection.cpp:217-240 | The worker's loop over queries of all three kinds: the log is theirs, job by job in order; after a blocked ROLLBACK, itself refused, every command is refused, and the connection never gets back in sync. |
| Session.PromiseExactly | src/CMySQLQuery.cpp:181-259 | Over any session, from any open transaction: after each query, exactly the transactions that succeeded and the single statements carried out are durable, in order, if and only if the server accepts nothing behind a transaction whose ROLLBACK was refused, save a START when that one had done no work. |
| Session.AllEnded | src/CMySQLQuery.cpp:195-245 | If every transaction that began was ended, the promise is kept and none is open. |
| Session.BlockedForGood | src/CMySQLQuery.cpp:214-245 | A transaction whose ROLLBACK the connector refused out of sync stays open to the end of the session: nothing of it or of anything later becomes durable. |
| Session.OnlyBlockedSafe | src/CMySQLQuery.cpp:214-245 | If refusals out of sync are the only ones of a ROLLBACK, the promise is kept. |
| Session.PartialWork | src/CMySQLQuery.cpp:240-245 | A server that refuses ROLLBACK: two transactions run on its connection, the first fails and the second succeeds, and the first one's statement becomes durable with the second. |
| Session.BlockedWork | src/CMySQLQuery.cpp:214-245 | A server whose statements have two result sets, of which the first cannot be stored: two transactions run on its connection, the first is blocked and leaves the connection out of sync, every command of the second is refused, and the first one's statement is left in an open transaction. |
| Packing.RoundUpMask | src/CMySQLQuery.cpp:489-490 | In words of any width, rounding with the mask is the rounding up that both passes use, as long as the sum is a word. |
| Packing.MeasureRow | src/CMySQLQuery.cpp:483-490 | The first pass measures exactly the row's size. |
| Packing.FillRow | src/CMySQLQuery.cpp:509-523 | The second pass writes exactly the row's pointers, NULLs, values and terminators, and stops at the measured size. |
| Packing.StoreTextRows | src/CMySQLQuery.cpp:473-524 | Both passes: the allocation is the specified block, filled to its end. |
| Packing.MeasurePreparedRow | src/CMySQLQuery.cpp:120-125 | The same first pass over values and null marks. |
| Packing.FillPreparedRow | src/CMySQLQuery.cpp:142-156 | The same second pass. |
| Packing.StorePreparedRows | src/CMySQLQuery.cpp:116-157 | The same block as for text rows, and none for no rows. |
| Packing.FetchedSame | src/CMySQLQuery.cpp:116-157 | The two packers lay out the same cells in the same way. |
| Packing.OffsetAligned | src/CMySQLQuery.cpp:489-492 | Every row starts at a multiple of the pointer size. |
| Packing.BlockReads | src/CMySQLQuery.cpp:498-524 | Each entry of the row table points to its row, which lies behind the table and inside the block. |
| Packing.CellPointer | src/CMySQLQuery.cpp:510-521 | The pointer of each field leads to where its value starts, and is null exactly for NULL. |
| Packing.RowEnd | src/CMySQLQuery.cpp:522 | A null pointer follows the last field. |
| Packing.CellText | src/CMySQLQuery.cpp:517-520 | Each value lies inside its row, holds the source's bytes and a NUL, and reads as a C string up to the source's first NUL. |
| Packing.ValuesApart | src/CMySQLQuery.cpp:509-523 | The values of any two cells are disjoint. |
| Packing.CMySQLResult.GetFieldName | src/CMySQLResult.cpp:8-20 | The name of the field, or NULL out of range. |
| Packing.CMySQLResult.GetRowData | src/CMySQLResult.cpp:22-41 | The pointer found leads to the source's cell, and is NULL for NULL or out of range. |
| Packing.CMySQLResult.GetRowDataByName | src/CMySQLResult.cpp:43-75 | The cell of the first column of that name, and NULL if there is none. |
| LifecycleHandles.HandlesAlways | src/CMySQLHandle.cpp:109-130 | Every usable handle exists; the only other handle that exists is that being closed, whose connections so far are stopped and empty. |
| LifecycleTokens.TokensAlways | src/CMySQLQuery.h:61-83 | Every control block is alive exactly as long as its one holder holds it, and what a query remembers of handle, script and ORM is true while their control blocks live. |
| LifecycleTokens.RightGeneration | src/CCallback.cpp:22-58 | In every run, a public function runs only in the generation of the script that issued the query. |
| LifecycleTokens.RightLayout | src/CCallback.cpp:36-53 | In every run, a result is applied only to a live ORM whose variables and key are those its query was generated from. |
| LifecycleService.ServedOrDropped | src/CCallback.cpp:22-95 | Over every run, a query that the tick takes has been executed exactly once. It is dropped, and nothing else happens, exactly if its script was not loaded when it was issued, or has been unloaded or loaded again since, or its ORM has been changed or destroyed since, by itself, with its owner or with its handle. Otherwise the result of a SELECT or INSERT that did not fail is applied, and its public function runs, in the generation of the script that issued it, if it has one that is found: the native's, OnQueryError after an error, none without a result. |
| LifecycleService.LoadedExactly | src/CCallback.h:60-67 | A script is loaded exactly if it has been loaded and not unloaded since. |
| LifecycleService.NativesPossible | src/CScripting.cpp:219-271 | Whenever scripts run, every native can be called on a handle that is open and an ORM that exists. |
| LifecycleService.ExecutedThere | src/CScripting.cpp:228-264 | A query is executed on the connection it was issued on, and that of an ORM on the threaded connection of the ORM's handle. |
| LifecycleService.ExampleServed | src/CCallback.cpp:55-115 | A run of ten steps in which a query's public function runs. |
| LifecyclePlaces.NoFault | src/CCallback.cpp:30-118 | No run touches a query, handle, connection or ORM after its deletion, calls into a script that is not loaded, or deletes a query twice. The memory behind an ORM's variables is the subject of `LifecycleMemory`. |
| LifecycleMemory.StraysExactly | src/COrm.cpp:52-315 | A run touches the memory of a script that has ended exactly if one of its steps uses a variable, to generate a query or to apply a result, whose script is not loaded at that moment. |
| LifecycleMemory.IssueStrays | src/COrm.cpp:196-305 | An ORM's native touches such memory exactly if what its query is generated from lies there: the key for SELECT and DELETE, all variables and the key for UPDATE, all variables and a key that is a string for INSERT. |
| LifecycleMemory.ResultStrays | src/COrm.cpp:211-296 | A result does exactly if what it is written to lies there: all variables for a SELECT, a key that is a number for an INSERT. |
| LifecycleMemory.OwnersNeverStray | src/main.cpp:154-159 | If only an ORM's owner binds variables to it, and no script is loaded over another, no run does so: the owner's end takes its ORMs along. |
| LifecycleMemory.ForeignExactly | src/CScripting.cpp:482-540 | From any state in which scripts run, without another binding by a script that is not the owner, the run can still come to touch such memory exactly if a variable bound now is not its ORM's owner's. |
| LifecycleMemory.ForeignStrays | src/COrm.cpp:44-50 | Whenever an ORM has another script's variable, the end of that script and one use of the ORM touch its former memory. |
| LifecycleMemory.PendingStrays | src/COrm.cpp:211-242 | Whenever a SELECT of such an ORM is next in the callback queue, the end of the other script does not cancel it, and the next tick writes to its former memory. |
| LifecycleMemory.ForeignRun | src/CScripting.cpp:482-497 | A run that does so from the beginning, with two scripts, one handle, one ORM and one variable. |
| LifecyclePlaces.ExactlyOnePlace | src/CMySQLConnection.cpp:215-240 | In every run, each query that exists is in exactly one of native, connection queue, worker, callback queue, tick, or lost, and a deleted one in none. |
| LifecyclePlaces.DeletedOnce | src/CCallback.cpp:115 | A deleted query is nowhere in any continuation of the run. |
| LifecyclePlaces.QueuedHandlesOpen | src/CScripting.cpp:998-1002 | Whenever no native is under way, a query that is queued, executing or waiting belongs to an open handle, the very one it was issued on; so after `mysql_close` none refers to the closed handle. |
| LifecyclePlaces.TickHandle | src/CCallback.cpp:97-108 | After a public function, the lifetime test is true exactly if the handle at the query's address is still the one the query was issued on. |
| LifecycleClose.CloseHandle | src/CScripting.cpp:987-1003 | `mysql_close` comes to its end from any state in which scripts run, whatever the workers are doing: the handle is gone, and no query of it is left except one whose public function is running or one that was lost. |
| LifecycleCounter.CounterExact | src/CMySQLHandle.cpp:132-155 | Whenever a native can ask, an open handle's counter is exactly the number of its queries queued or executing on all its connections. |
| LifecycleCounter.PendingAppend | src/CMySQLHandle.cpp:132-155 | That number is the sum over the connections. |
| LifecycleCounter.PendingOne | src/CMySQLHandle.cpp:132-155 | One connection contributes the length of its queue, and one more while its worker executes. |
| LifecycleCounter.CounterBehind | src/CMySQLHandle.cpp:136-138 | Between the push and the count, the counter plus one is that number modulo 2^32. |
| LifecycleOrder.CallbacksInOrder | src/CMySQLConnection.cpp:217-238 | In every run without `mysql_close`, the callbacks of one connection run in the order in which it accepted their queries. |
| LifecycleOrder.RunsSubmitted | src/CMySQLHandle.cpp:132-155 | Every callback that runs belongs to a query that a connection accepted. |
| LifecycleEndings.WhyGone | src/CCallback.cpp:30-118 | In every run, a query that is gone was deleted by one step for one of six reasons: its connection refused it, the callback queue was full, its handle was closed before or after it was executed, it was cancelled or had nothing to call, or its callback ran. |
| LifecycleEndings.StepEnding | src/CMySQLConnection.cpp:217-240 | No other step deletes a query. |
| LifecycleEndings.EndingDeletes | src/CCallback.cpp:30-118 | And each of these reasons does delete it: a queue of 16876 or a missing connection, a callback queue of 32648, a dispatch without a call, and the end of the call. |
| LifecycleEndings.CallbackOnce | src/CCallback.cpp:55-115 | In every run, no query's callback runs twice. |
| LifecycleTick.ProcessCallbacks | src/CCallback.cpp:30-118 | The loop, with any steps of natives and other threads while the public functions run: each turn serves the query that is first then, called exactly if it is not cancelled at that moment and has a public function; its result is applied, and it alone is deleted at the end, being still there; the loop ends with an empty queue unless a turn writes to the memory of a script that has ended, or a native does not return. |
| LifecycleTick.QuietTick | src/CCallback.cpp:30-118 | Without such steps, it ends exactly if no waiting query's result is to be written to the memory of a script that has ended; then every waiting query has been served in order: exactly those that are not cancelled and have a public function were called, their results are applied, and exactly the waiting queries are deleted. |
| LifecycleWorker.ProcessQueries | src/CMySQLConnection.cpp:217-239 | A worker by itself empties its connection's queue: each query is executed and counted off once, delivered in order as far as the callback queue has room, and deleted otherwise; nothing else changes. |
| Callbacks.FillCallbackParams | src/CCallback.cpp:121-150 | For each character of the format one parameter is kept, in order: the cell for d, i and f, the string for z and s, and the text NULL for others. |
| Callbacks.PushParams | src/CCallback.cpp:65-92 | The public function's k-th argument is the k-th parameter: a cell, a cell by reference, or a string in the script's memory that nothing overwrote; the script's own cells are untouched. |
| Callbacks.Call | src/CCallback.cpp:65-101 | The public function runs once, on a memory with the script's own cells as they were and with the parameters as its arguments in order: a cell, the address of a cell, or the address of a string with its terminator; what it leaves in memory stays; the heap is given back exactly if its script is still loaded. |
| Queues.ClearByHandle | src/CCallback.cpp:152-171 | By itself, it deletes exactly the handle's queries and leaves exactly the others in the queue, none twice. |
| Queues.OthersKeepOrder | src/CCallback.cpp:156-170 | The queries that stay are in their old order. |
| Queues.Drain | src/CMySQLConnection.cpp:55-57 | The destructor deletes each query left in the connection's queue once. |
| Queues.CMySQLHandle.QueueQuery | src/CMySQLHandle.cpp:132-155 | One connection's queue gets the query at its end or none does; the pool moves on even after a refusal; the counter counts accepted queries. |
| Queues.CMySQLHandle.PoolBalanced | src/CMySQLHandle.cpp:142-152 | After any submissions, refused ones included, the offers to two connections of the pool differ by at most one. |
| Queues.OfferNext | src/CMySQLHandle.cpp:144-146 | The next pooled submission is offered to one connection in turn and to no other. |
| IdSearch.NextId | src/CMySQLHandle.cpp:74-83 | For any order of the map, the search stops within it and yields an id that is not in use, and not 0 unless 4294967295 is. |
| IdSearch.ZeroFound | src/CMySQLHandle.cpp:168-178 | Some order of the map yields 0 exactly if 4294967295 is a key and 0 is none. |
| IdSearch.SomeSuccessorFree | src/COrm.cpp:90-99 | Some key has a successor that is no key, unless all 32-bit numbers are keys. |
| HandleCache.CMySQLHandle.SaveActiveResult | src/CMySQLHandle.cpp:157-189 | Saves an unsaved active result under an id not in use, returns the id of a saved one, and 0 without one; the id is not 0 and the handle stays consistent unless 4294967295 is in use. |
| HandleCache.CMySQLHandle.DeleteSavedResult | src/CMySQLHandle.cpp:191-212 | Deletes a saved result that exists, and deactivates it if it is active. |
| HandleCache.CMySQLHandle.SetActiveById | src/CMySQLHandle.cpp:214-246 | Activates a saved result or none, and deletes an unsaved one that was active. |
| HandleCache.CMySQLHandle.SetActive | src/CMySQLHandle.cpp:256-264 | Takes a query's result over as active and unsaved. |
| HandleCache.CMySQLHandle.QueryCached | src/CScripting.cpp:1187-1204 | `mysql_query` with its cache saves the new result under a new id that is active, and yields 0 without a result. |
| HandleCache.CMySQLHandle.EndCallback | src/CCallback.cpp:103-108 | After a callback in which the script did anything, an open handle's unsaved active result is deleted once, and nothing is active. |
| HandleCache.CMySQLHandle.Destroy | src/CMySQLHandle.cpp:32-43 | Deletes every result of the handle once, and none of another handle. |
| HandleCache.Plugin.GetActiveResult | src/CScripting.cpp:673-684 | What the cache natives read from the active handle exists. |
| Format.ReadSpecifier | src/CScripting.cpp:1570-1595 | Moves over a specifier exactly as the grammar of formats reads it. |
| Format.PutArgument | src/CScripting.cpp:1600-1771 | Writes an argument whole with its padding if the checked length fits, and nothing otherwise; the write position stays below the destination length. |
| Format.Fill | src/CScripting.cpp:1545-1781 | The loop leaves the rendering of the whole format in the buffer, below the destination length. |
| Format.MysqlFormat | src/CScripting.cpp:1509-1785 | The script's memory holds the rendered text and its terminator, nothing else in it changes, and the text's length is returned. |
| Format.StaysExactly | src/CScripting.cpp:1547-1779 | For every format and destination, the text stays below the destination length exactly if no conversion that passes its check writes up to it. |
| Format.CoveredExactly | src/CScripting.cpp:1657-1692 | For whole formats: no destination is overrun by the format or a tail of it exactly if no float of precision 1 to 9 asks for more digits than the library's text has. |
| Format.NineDigitsOverrun | src/CScripting.cpp:1666-1684 | 1.5 with nine digits writes 11 characters to a destination of 4. |
| Format.WholeOrNothing | src/CScripting.cpp:1545-1779 | The text is the concatenation of some of the items, each whole; before something kept, only arguments are left out. |
| Format.AllFit | src/CScripting.cpp:1545-1779 | With room for everything, everything is kept. |
| Format.PlainTextIsCut | src/CScripting.cpp:1547-1551 | A format without specifiers is cut to the destination. |
| Format.ArgumentIsCutExactly | src/CScripting.cpp:1632-1640 | For `%s`, the text is the argument cut to the destination exactly if the argument fits, or the destination has room for the terminator only. |
| Format.NumbersFitExactly | src/CScripting.cpp:1607-1758 | A 32-bit number and its terminator fit the local buffer they are written to exactly unless the conversion is `%b` and the number -2147483648. |
| FormatReading.NumberReads | src/CScripting.cpp:1602-1770 | What `%d`, `%x`, `%X` and `%b` write is padding as the width asks and then a number that reads back, sign and all, as the cell in base 10, 16, 16 or 2; or nothing if that does not fit. |
| FormatReading.FloatReads | src/CScripting.cpp:1649-1697 | What `%f` writes is padding and then the library's text, or its whole part and as many digits as the precision asks, with zeros where there are no more. |
| FormatReading.SpecifierReads | src/CScripting.cpp:1570-1595 | A zero, a width, a point with a digit and a conversion are read as what they were written from. |
| FormatReading.FormattedReads | src/CScripting.cpp:1545-1781 | A query built from words, `%d` and `'%e'` in a buffer with room for it is one statement, whatever the arguments hold, and its quoted parts decode to the string arguments in order, if the escape call keeps its contract. |
| FormatReading.QuotedAlone | src/CScripting.cpp:1701-1717 | `'%e'` alone: with room, the lexer finds one quoted token that decodes to the argument; with one character too little, the closing quote is cut and the text is unclosed; with less, the quotes are empty. |
| FormatReading.QuoteEscaped | src/CScripting.cpp:1701-1717 | A single quote in the argument comes out behind a backslash, with the documented escapes. |
| FormatReading.MissingReads | src/CScripting.cpp:1564-1568 | A specifier without an argument writes nothing. |
| FormatReading.PercentReads | src/CScripting.cpp:1557-1562 | Two percent signs are read as one character of text, and take no argument. |
| FormatReading.EscapeKeeps | src/CMySQLConnection.cpp:157-174 | The documented escapes keep the contract that FormattedReads asks of the escape call. |
| Misc.DigitsValue | src/misc.cpp:37-47 | The digits written for a number read back as the number, in every base. |
| Misc.IntTextReads | src/misc.cpp:37-47 | The text written for an integer reads back as the integer, sign and all, in every base. |
| Misc.DigitsLength | src/misc.cpp:37-47 | A number has at most k digits exactly if it is less than the k-th power of the base. |

## Left out

- The connector, TLS, sockets and the server: parameters and answers of a server function. Backslash escapes, a
  single-byte character set, and no statements that commit implicitly are assumed.
- The Pawn machine: a script is memory cells and the power to call any native at any time.
- Connecting, disconnecting and reconnecting through the function queue (src/CMySQLConnection.cpp:205-213): failed
  functions go behind later ones, so there is no order to prove. A worker in the model is always connected.
- A connection lost during COMMIT: whether the server committed cannot be known from the connector's answer. A lost
  connection altogether, and the worker's reconnection after error 2006 (src/CMySQLConnection.cpp:221-232): the server
  then rolls back an open transaction, which `Session` does not model.
- Whether closing a prepared statement reads its further result sets is the connector's; it is a parameter.
- Allocation failure, and sizes beyond what a `size_t` holds in the packers.
- A fetch that fails in the second pass over a result (src/CMySQLQuery.cpp:503-506), and the metadata around the rows.
- The life of results inside the life of queries: `HandleCache` has the results, `Lifecycle` the queries.
- Leak freedom: activating a query's result drops an unsaved one that was active before, and `ClearByHandle` loses a
  query when workers have filled the queue meanwhile (`lost` in `Lifecycle`).
- LifecycleOrder.CallbacksInOrder: makes no claim for runs with `mysql_close`, because workers may push between the two
  loops of `ClearByHandle`.
- LifecycleTick.ProcessCallbacks: other threads move only while public functions run; what they do between the other
  steps of a tick is in every run of `Lifecycle`, and what the steps keep is proved there.
- Two variables of one ORM that share cells, and what the memory of a script that has ended is used for next.
- LifecyclePlaces.ExactlyOnePlace: query objects have identities that are never used again, where the program has
  addresses; no place keeps the address of a deleted query.
- Format.MysqlFormat: asks for formats that do not end inside a specifier, a destination length other than 0, no float
  that overruns the destination, and no precision of 0 to 9 for a float whose text in the library is shorter than its
  whole part, as that of 1000000.0, which has an exponent; widths are unbounded numbers, and so is the room of the local
  buffers in which numbers are written first (for their sizes see `Format.NumbersFitExactly`).
- Callbacks.Call: the function leaves the heap as it found it.
- Unthreaded queries other than `mysql_query`, the binding of prepared statements' parameters, the registries of
  statements and transactions: plain bookkeeping.
- `ParseUnsigned`, `ClearVariableValues`, logging, the ini reader, charset and statistics natives, plugin entry points:
  easy members or input and output.
