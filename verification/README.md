# walbox in Dafny

walbox turns a PostgreSQL logical replication byte stream into committed transactions, hands them to a handler in
commit order, and resumes from a saved LSN. This project models the parts of it where a mistake would lose, duplicate
or corrupt data, and proves what those parts promise.

## What is modelled

| modules | source | form |
|---|---|---|
| `Bytes`, `LsnText`, `Protocol` | `walbox/protocol.py`, `walbox/transport.py` | functions, with Python's slice rules written out |
| `Pgoutput`, `PgoutputDecoder`, `DecodeFaults`, `StaleDecoder` | `walbox/pgoutput.py` | decoding as functions on the bytes still to be read; the loops over a moving offset, `RelationCache` and `Decoder` as methods and classes proved equal to them; what it refuses; a decoder whose bracket flag was left on |
| `WireFormat`, `WireRoundTrip` | the server's side of the wire | encoders with the letters of the protocol's documentation, what a write did to which table, and round trips for single messages and whole streams |
| `Assembler`, `TransactionAssembler` | `walbox/transaction.py` | one message as a function on the whole state; the mutable buckets as classes proved equal to it |
| `Isolation`, `Boundaries`, `Conservation`, `Chunking`, `Savepoints` | `walbox/transaction.py` | laws of the assembler over all runs |
| `Pipeline`, `EndToEnd`, `Resend` | `walbox/client.py` with both of the above | bytes in, transactions out; the database beside it; a connection lost in mid-transaction |
| `ClientState`, `Client` | `walbox/client.py`, `walbox/abc.py`, `walbox/checkpoint.py` | the code between two awaits, as methods on the client, its handle and its store |
| `Delivery`, `Restarts`, `Feedback` | `walbox/client.py` | the delivery protocol as steps of client, checkpoint and server |
| `Session` | `walbox/client.py` | one connection: the frames a history puts on the wire against the steps of `Delivery` |
| `Sharding`, `ConcurrentHandler` | `examples/concurrency.py` | workers, joins and the checkpoint gate as steps; the handler object |

The client's functions in `ClientState` are what the methods of `Client` are proved against and what the steps of
`Delivery` are made of; `Sharding` and `ConcurrentHandler` are tied in the same way.

## Main results

- **End to end** (`EndToEnd.CommittedExactly`): for every server history of ordinary and streamed transactions, chunks
  interleaved and savepoints nested, writing it as bytes and running decoder and assembler over them raises nothing and
  emits exactly the committed transactions, in commit order, with their surviving changes and the latest table names.
- **Savepoints** (`Savepoints.SavepointMeaning`): truncating a list at recorded indices equals the undo stack that
  restores the length saved at each savepoint, for any order and repetition of the reported ids.
- **No loss** (`Restarts.NoLossOverRestarts`): over any run of sessions with crashes at any step, whatever position up
  to its maximum each handler saves.
- **Lost connections** (`Restarts.HandedIsPrefix`, `Restarts.DropHarmlessIff`, `Resend.OrdinaryResendIff`): what
  survives a reconnect in the same process, and the exact conditions under which nothing is lost: between transactions
  for the queue and the handler, and inside one for decoder and assembler, on the bytes sent again.
- **One connection** (`Session.SessionDelivers`): the transactions that a client completes from frames are the ones the
  delivery protocol counts, in that order, each with the commit LSN of its place in the commit log.
- **Isolation**, **conservation**, **chunking**, **boundary map**: `Isolation.FreshAssemblerAgrees`,
  `Conservation.ConserveRun`, `Chunking.StreamedEqualsOrdinary`, `Boundaries.ExactRun`.
- **Feedback**: `Feedback.FeedbackSafe`, `Feedback.BoundedInOrder`, `Feedback.ResumeExactly`.
- **Sharded handler**: `Sharding.EntityOrder`, `Sharding.SaveAfterAll`, `Sharding.SavedComplete`.

## Assumptions the code does not enforce

- *Stream.* Brackets do not nest and do not overlap Begin..Commit; StreamCommit and StreamAbort arrive outside brackets;
  no stream message names the open ordinary transaction; a table is described before it is used, with distinct column
  names. `EndToEnd.Possible` and `Isolation.Polite` state these. `Isolation.OrderlyStep` and `Pipeline.BracketAgreement`
  show that two of them are needed exactly.
- *Savepoint aborts.* The server reports every aborted subtransaction that has buffered changes, in any order, with
  any repeats; ids that wrote nothing may be reported too (`Savepoints.Covers`).
- *History.* A history lists the changes that were streamed, in the order streamed. Changes rolled back before they
  were sent never reach the client and are not part of it.
- *Server.* Commit records do not overlap, are in commit order and start above 0. The server sends every transaction
  whose record starts at or after both the requested position and the confirmed flush, and confirms the highest
  flushed position it has read.
- *Saves.* They run without a `connection`, one at a time, inside the running handler, with positions of at least 0.
  Only the claims on feedback need them never to go down.
- *Positions and sizes.* WAL positions in frames are below `2^64 - 1`, so that one more fits the reply. Where
  `StaleDecoder.ShortTexts` is asked for, a field's text is below 1 GB, as in PostgreSQL.
- *Resent transactions.* A table is described inside a transaction only when a row follows (`Resend.RowLast`).
- *Columns.* A key tuple that the server sends has no key column marked unchanged (`WireFormat.ImageFits`).

## Where the code and its documentation differ

- `walbox/transaction.py:181-186` calls its guard unreachable through `feed()`. It is reachable, and so is a `KeyError`
  in `_finish`: `Isolation.GuardsReached` gives the messages. On polite streams neither is (`Isolation.OrderlyGuards`).
- `walbox/transaction.py:45-50` and the test on nested savepoints (`tests/unit/test_transaction_streaming.py:228-245`)
  rely on the outermost abort alone being enough. It is enough exactly when nothing was written since the savepoint
  began or the savepoint itself wrote first: `Savepoints.OutermostOnly`, with `Savepoints.OutermostOnlyFails` as a run
  that keeps a rolled-back change.
- `ARCHITECTURE.md:94` says the buffer of a streamed transaction is lost with its connection. Only a new process loses
  it: `_decoder` and `_assembler` are made once (`walbox/client.py:70-77`) and `_run_once` does not reset them. What is
  resent is then not always taken: `Resend.OrdinaryResendIff` and `Resend.StreamedResendIff` give the exact conditions,
  on the bytes. The decoder's bracket flag stays on together with the assembler's bracket, so a resent ordinary
  transaction is read with the wrong layout: its Inserts and Deletes are refused (`StaleDecoder.StaleInsert`,
  `StaleDecoder.StaleDelete`), so are its Updates but for one rare case, which comes out for the wrong table
  (`StaleDecoder.StaleUpdate`), and a resent Relation is stored as another table's (`StaleDecoder.StaleRelation`).
  `Resend.LostInsideBracket` is a concrete run that ends in a `DecodeError`, which ends the client.
- `README.md:15` promises clean recovery from connection drops. A drop that cancels a handler can be
  overtaken by a later transaction that was already queued, and whose save then covers the cancelled one:
  `Restarts.DropHarmlessIff` gives the condition, `Restarts.UnsafeDropLoses` the run.
- `_restrict_to_key_columns` (`walbox/pgoutput.py:490-504`) raises `KeyError`, not the `DecodeError` that its callers
  document, when a key column is marked unchanged: `WireRoundTrip.RestrictToKeysMeaning`.

## Model

| member | source | states |
|---|---|---|
| LsnText.HexRoundTrip | walbox/transport.py:40 | reading the printed hexadecimal digits of any number gives it back, and they hold no `/` |
| LsnText.SplitOnce | walbox/transport.py:49 | splitting two separator-free parts joined by the separator gives just those parts |
| LsnText.OrShifted | walbox/transport.py:50 | or-ing a low part below `2^k` into a part shifted by `k` adds them, for numbers of any size |
| LsnText.OrBits | walbox/transport.py:50 | every bit of the joined number is set exactly when it is set in one of the two parts |
| LsnText.SplitJoin | walbox/transport.py:49 | splitting cuts at every separator and nowhere else: the parts hold none and join to the text |
| LsnText.DigitsRead | walbox/transport.py:50 | the sixteen digits are read as their values in both cases |
| LsnText.OnlyDigits | walbox/transport.py:50 | and no other character is a digit |
| LsnText.HexRefused | walbox/transport.py:50 | a number is a `ValueError` exactly when it is empty or holds something that is no digit |
| LsnText.ParseAccepts | walbox/transport.py:43-50 | a text is read exactly when it is two numbers around one slash, and is a `ValueError` otherwise |
| LsnText.FormatParts | walbox/transport.py:40 | the printed form is the high and the low 32 bits of the LSN, each in upper-case hexadecimal without leading zeros, the low part in at most eight digits |
| LsnText.FormatParseRoundTrip | walbox/transport.py:34-50 | parsing the printed form of any LSN returns that LSN |
| Protocol.FrameRoundTrip | walbox/protocol.py:65-134 | every WAL or keepalive frame laid out as section 55.4 says, with the letters and lengths given there, is decoded to what was sent |
| Protocol.FrameAccepted | walbox/protocol.py:74-134 | a frame is accepted exactly when its letter is `w` and it has 25 bytes or more, or its letter is `k` and it has 18, and is a `ProtocolError` otherwise |
| Protocol.ReplyByte | walbox/protocol.py:106 | any byte but zero asks for a reply |
| Protocol.StatusUpdatePlusOne | walbox/protocol.py:137-155 | the server reads each of the three positions exactly one above the one the client holds |
| Protocol.StatusUpdateRest | walbox/protocol.py:148-155 | the update has the letter `r`, 34 bytes, the client's time and its reply flag where the server looks for them |
| Bytes.ToBytesFits | walbox/protocol.py:150-153 | conversion to a fixed number of bytes, digit by digit, succeeds exactly on the numbers that fit, with their big-endian digits |
| Protocol.EncodingFits | walbox/protocol.py:148-155 | the update built from four such conversions is the server's layout exactly when every position plus one and the time fit eight bytes, and an `OverflowError` otherwise |
| Bytes.Slices | walbox/pgoutput.py:334 | a slice and the one after it make up the bytes, and a slice is as long as asked for unless the bytes run out |
| Bytes.LeadByte | walbox/pgoutput.py:334 | the first byte of a number is its most significant |
| Bytes.SignedRoundTrip | walbox/pgoutput.py:349 | a signed big-endian field of four bytes is read back, negative values included |
| Bytes.CStringRoundTrip | walbox/pgoutput.py:310-312 | a NUL-free string is read back with its terminator consumed and nothing more |
| PgoutputDecoder.ReadCStringAt | walbox/pgoutput.py:310-312 | the string at an offset and the offset after it agree with reading the bytes from that offset on, and fail together |
| PgoutputDecoder.DecodeRelation | walbox/pgoutput.py:315-365 | the loop over a moving offset computes the recursive reading of the remaining bytes, errors included |
| PgoutputDecoder.DecodeTupleData | walbox/pgoutput.py:413-447 | the loop fills the row and stops at the offset that the recursive reading of the cells gives, errors included |
| PgoutputDecoder.DecodeInsert | walbox/pgoutput.py:450-487 | the offset-based decoder equals the specification on every payload, for both layouts |
| PgoutputDecoder.DecodeUpdate | walbox/pgoutput.py:507-555 | the same for Update, with no, key or full old tuple |
| PgoutputDecoder.DecodeDelete | walbox/pgoutput.py:558-598 | the same for Delete |
| PgoutputDecoder.DecodeTruncate | walbox/pgoutput.py:601-640 | the loop over relation ids equals the specification, errors included |
| PgoutputDecoder.RelationCache.constructor | walbox/pgoutput.py:270-272 | the cache starts empty |
| PgoutputDecoder.RelationCache.Add | walbox/pgoutput.py:274-288 | the new description replaces the one for its id and no other |
| PgoutputDecoder.Decoder.constructor | walbox/pgoutput.py:850-853 | the decoder knows no table and no bracket is open |
| PgoutputDecoder.Decoder.Decode | walbox/pgoutput.py:855-897 | result, cache and bracket flag after any payload are those of the decoder function, also when decoding fails |
| WireRoundTrip.TupleRoundTrip | walbox/pgoutput.py:413-447 | a tuple of text, null and unchanged cells decodes to its row and exactly its bytes are consumed |
| WireRoundTrip.RowMeaning | walbox/pgoutput.py:426-447 | for distinct names: unchanged columns are absent, every other column has the value sent, nothing else is there |
| WireRoundTrip.RestrictToKeysMeaning | walbox/pgoutput.py:490-504 | the result is exactly the key columns as sent, and it is a `KeyError` exactly when a key column was unchanged |
| WireRoundTrip.InsertRoundTrip | walbox/pgoutput.py:450-487 | an encoded Insert decodes to its meaning, in and out of a bracket |
| WireRoundTrip.UpdateRoundTrip | walbox/pgoutput.py:507-555 | the same for Update with each kind of old tuple |
| WireRoundTrip.DeleteRoundTrip | walbox/pgoutput.py:558-598 | the same for Delete |
| WireRoundTrip.TruncateRoundTrip | walbox/pgoutput.py:601-640 | the same for Truncate, its table names in order and both flag bits |
| WireRoundTrip.ColumnRoundTrip | walbox/pgoutput.py:343-358 | a column description is read back with its signed modifier and key flag, and only its bytes are consumed |
| WireRoundTrip.RelationRoundTrip | walbox/pgoutput.py:315-365 | an encoded Relation decodes to itself, the leading xid skipped exactly when it was sent |
| WireRoundTrip.TypeRoundTrip | walbox/pgoutput.py:643-672 | an encoded Type decodes to itself in both layouts |
| WireRoundTrip.EmittedRoundTrip | walbox/pgoutput.py:697-729 | an encoded logical Message decodes to itself in both layouts |
| WireRoundTrip.OriginRoundTrip | walbox/pgoutput.py:675-694 | an encoded Origin decodes to itself |
| WireRoundTrip.BeginRoundTrip | walbox/pgoutput.py:368-385 | an encoded Begin decodes to itself |
| WireRoundTrip.CommitRoundTrip | walbox/pgoutput.py:388-410 | an encoded Commit decodes to itself, both LSNs kept apart |
| WireRoundTrip.StreamCommitRoundTrip | walbox/pgoutput.py:766-789 | an encoded StreamCommit decodes to itself over its reserved byte |
| WireRoundTrip.StreamMarkersRoundTrip | walbox/pgoutput.py:732-811 | encoded StreamStart, StreamStop and StreamAbort decode to themselves |
| WireRoundTrip.DecodeEncode | walbox/pgoutput.py:855-897 | decoding any packet that fits gives its meaning, and the decoder then holds exactly what the packet taught it |
| WireRoundTrip.DescribedIsLatest | walbox/pgoutput.py:261-307 | looking an id up after any stream gives its last Relation message, found by searching back, and a decode error exactly when there was none |
| WireRoundTrip.StreamRoundTrip | walbox/pgoutput.py:841-897 | every message of every well-formed stream decodes to its meaning: rows read with the latest description, a subtransaction id exactly inside brackets |
| WireRoundTrip.EventsOfOp | walbox/transaction.py:192-238 | the change events of a decoded row message are what the write did: kind, table, new row and old row, one event per truncated table |
| DecodeFaults.UnknownKind | walbox/pgoutput.py:891-897 | an empty payload or one that starts with the letter of no message is a `DecodeError` |
| DecodeFaults.WrongLength | walbox/pgoutput.py:378-404 | each of the six messages of fixed length is refused exactly when its length is another; a malformed StreamStop still clears the flag, nothing else moves |
| DecodeFaults.FaultKeeps | walbox/pgoutput.py:868-891 | whatever is raised, no table is learned or forgotten, and only a StreamStop moves the flag |
| DecodeFaults.UnknownTable | walbox/pgoutput.py:290-307 | a row change of a table that was never described is a `DecodeError` in either layout |
| DecodeFaults.WrongCount | walbox/pgoutput.py:418-425 | a tuple with another number of columns than its table is a `DecodeError` |
| DecodeFaults.WrongCell | walbox/pgoutput.py:427-446 | so is a tuple with a cell that is none of null, unchanged and text, after any cells |
| DecodeFaults.MissingMarker | walbox/pgoutput.py:476-589 | so are an Insert, an Update and a Delete without their tuple marker |
| DecodeFaults.Unterminated | walbox/pgoutput.py:310-312 | a string is a `ValueError` exactly when no NUL ends it |
| DecodeFaults.KeyBit | walbox/pgoutput.py:356 | a column is a key column exactly when the lowest bit of its flags is set |
| DecodeFaults.TruncateBits | walbox/pgoutput.py:637-638 | CASCADE is the lowest bit of a Truncate's flags and RESTART IDENTITY the next, whatever the others are |
| DecodeFaults.SegmentByte | walbox/pgoutput.py:746 | any byte but zero marks a first segment |
| DecodeFaults.TransactionalByte | walbox/pgoutput.py:715 | any byte but zero marks a transactional message |
| TransactionAssembler.Pending.constructor | walbox/transaction.py:36-55 | an empty bucket with the given final LSN |
| TransactionAssembler.Pending.Append | walbox/transaction.py:187-190 | the change goes last, and its subtransaction's boundary is recorded only the first time |
| TransactionAssembler.Pending.Cut | walbox/transaction.py:334-352 | the loop leaves exactly the boundaries below the cut, and the changes before it |
| TransactionAssembler.TransactionAssembler.constructor | walbox/transaction.py:69-73 | nothing is open |
| TransactionAssembler.TransactionAssembler.Feed | walbox/transaction.py:75-136 | state and result after any message are those of the assembler function; a rejected message leaves the whole state as it was |
| TransactionAssembler.TransactionAssembler.BeginTransaction | walbox/transaction.py:138-153 | opens a bucket, or fails and changes nothing when one is open or the xid is taken |
| TransactionAssembler.TransactionAssembler.AppendChanges | walbox/transaction.py:155-172 | adding change by change, looking the bucket up each time, equals adding all at once, and fails with nothing added |
| TransactionAssembler.TransactionAssembler.AppendChange | walbox/transaction.py:174-190 | one bucket gets the change, all others stay |
| TransactionAssembler.TransactionAssembler.Finish | walbox/transaction.py:240-259 | emits and forgets the open transaction, or fails on a foreign commit LSN with the state unchanged |
| TransactionAssembler.TransactionAssembler.StartStream | walbox/transaction.py:261-279 | opens or resumes a bucket, or fails with the state unchanged |
| TransactionAssembler.TransactionAssembler.CommitStream | walbox/transaction.py:285-309 | emits and forgets the bucket of that xid, closing its bracket if open |
| TransactionAssembler.TransactionAssembler.AbortStream | walbox/transaction.py:311-357 | drops the bucket for a full abort, cuts it for a savepoint, and accepts unknown xids |
| Assembler.AppendedTwice | walbox/transaction.py:231-238 | appending a Truncate's events one at a time is appending them together, boundary included |
| Isolation.Acceptance | walbox/transaction.py:138-333 | in any state, exactly which messages are accepted and what each other one raises |
| Isolation.UnknownAbort | walbox/transaction.py:322-333 | an abort of an unknown stream changes nothing |
| Isolation.OrderlyStep | walbox/transaction.py:138-299 | an accepted message keeps "the open ordinary xid has a bucket with a final LSN, no other has one, an active stream has its own bucket" exactly when it does not name the open ordinary transaction |
| Isolation.OrderlyGuards | walbox/transaction.py:155-190 | while that holds no `KeyError` occurs and a row change is refused only when nothing is open |
| Isolation.GuardsReached | walbox/transaction.py:181-186 | message sequences that reach the guard called unreachable, and the `KeyError` of `_finish` |
| Isolation.OrderlyRun | walbox/transaction.py:138-299 | the invariant holds at the end of every accepted polite run |
| Isolation.NonInterference | walbox/transaction.py:155-309 | on any polite interleaving, an assembler fed only one xid's messages accepts them, emits the same for it and ends with the same bucket |
| Isolation.FreshAssemblerAgrees | walbox/transaction.py:155-309 | what is emitted for an xid is what a fresh assembler emits when fed only that xid's messages |
| Boundaries.ExactAppend | walbox/transaction.py:187-190 | after appending, the boundary map is still the index of each tag's first change |
| Boundaries.ExactCut | walbox/transaction.py:334-352 | cutting at the recorded boundary is cutting at the first change of that subtransaction, found by search |
| Boundaries.ExactRun | walbox/transaction.py:174-352 | in every reachable state every bucket's boundary map holds exactly the tags of its surviving changes, each at its first index |
| Boundaries.BoundariesInRange | walbox/transaction.py:334-352 | hence boundaries are in range and pairwise different |
| Boundaries.CutsCommute | walbox/transaction.py:334-352 | savepoint aborts on a bucket commute and repeating one changes nothing |
| Conservation.HeldSplit | walbox/transaction.py:71 | the changes held in all buckets are those of any one bucket and of the rest |
| Conservation.ConserveStep | walbox/transaction.py:174-357 | one accepted message keeps the balance of changes fed, held, emitted and discarded, as multisets |
| Conservation.ConserveRun | walbox/transaction.py:75-357 | over any accepted run each change event fed is still buffered, in one emitted transaction, or discarded by an abort |
| Chunking.ChunksRun | walbox/transaction.py:261-283 | the bucket after any chunks, from any state, is what their concatenation makes of it |
| Chunking.CutsInvisible | walbox/transaction.py:261-309 | the emitted transaction depends on the concatenated chunks only, savepoint aborts between them included |
| Chunking.OrdinaryRun | walbox/transaction.py:138-259 | Begin, body, Commit emits the body's changes and leaves the rest of the state as it was |
| Chunking.CommitMatchesBegin | walbox/transaction.py:246-251 | a transaction is emitted exactly when its Commit names the position its Begin announced, and is a `ProtocolError` otherwise |
| Chunking.StreamedEqualsOrdinary | walbox/transaction.py:240-392 | without aborts, any chunking emits the transaction that the same rows give as Begin..Commit |
| Savepoints.SoundStep | walbox/transaction.py:311-352 | after every savepoint operation the changes made since each open savepoint are exactly those tagged within it |
| Savepoints.CutAllTruncates | walbox/transaction.py:334-352 | cutting at every reported id, in any order and with repeats, truncates to the length saved when the savepoint began |
| Savepoints.MirrorStep | walbox/transaction.py:174-352 | each operation keeps the bucket equal to the server's surviving changes |
| Savepoints.UndoAgrees | walbox/transaction.py:311-321 | the server's tagged view and the plain undo stack agree after each operation |
| Savepoints.SavepointMeaning | walbox/transaction.py:174-357 | for every sequence of writes, savepoints, releases and rollbacks the bucket holds what the plain undo stack keeps |
| Savepoints.OutermostOnly | walbox/transaction.py:311-345 | reporting only the savepoint's own id restores its length exactly when nothing was written since it began or it wrote the first such change |
| Savepoints.OutermostOnlyFails | walbox/transaction.py:45-50 | a sequence after which the outermost abort alone leaves a rolled-back change behind |
| Pipeline.HandleConcat | walbox/client.py:225-240 | handling payloads in two batches is handling them in one |
| Pipeline.BracketAgreement | walbox/client.py:225-240 | decoder and assembler keep agreeing on an open bracket exactly as long as no stream is ended inside its own bracket |
| Pipeline.DecodedKind | walbox/pgoutput.py:868-891 | the bracket flag after any decoded payload is determined by the two marker kinds alone |
| EndToEnd.TrackEvent | walbox/client.py:225-240 | after the bytes of any one server event the decoder and every bucket mirror the database, and what it committed was emitted |
| EndToEnd.TrackHistory | walbox/client.py:225-240 | the same after any history, from any mirrored state |
| EndToEnd.CommittedExactly | walbox/client.py:225-240 | from the start: no exception, exactly the committed transactions in commit order, the latest table names, and the bracket flag on exactly while the assembler has an active stream |
| EndToEnd.AsideDropped | walbox/client.py:229-237 | a Type, Origin or logical Message payload, in either layout, is read in full and dropped: no exception, nothing changed |
| EndToEnd.PossibleKeepsFine | walbox/transaction.py:261-299 | the stream rules are self-consistent: no possible event leads to a state outside them |
| StaleDecoder.StaleInsert | walbox/pgoutput.py:469-478 | with the flag left on, any Insert laid out without an Xid field is a `DecodeError` |
| StaleDecoder.StaleDelete | walbox/pgoutput.py:577-589 | so is any Delete |
| StaleDecoder.StaleUpdate | walbox/pgoutput.py:529-555 | so is any Update, unless its old tuple is one cell without text and the id read from that tuple names a table of one column: then exactly that table's row comes out, with the relation id as subtransaction id |
| StaleDecoder.MisreadIds | walbox/pgoutput.py:534-536 | the ids read in that case are ordinary OIDs |
| StaleDecoder.StaleEmptyTruncate | walbox/pgoutput.py:621-629 | a Truncate of no tables runs out of bytes |
| StaleDecoder.StaleKind | walbox/pgoutput.py:868-891 | whatever row is read, the decoder learns nothing from it and returns a row change or an error |
| StaleDecoder.StaleRelation | walbox/pgoutput.py:328-365 | a Relation whose schema name has four bytes or more is stored as another table's: its id those four bytes, its schema name the rest |
| StaleDecoder.StaleRelationId | walbox/pgoutput.py:332-336 | for any schema name, a Relation that decodes is stored under an id read from the bytes after its own |
| Resend.HandleMeant | walbox/client.py:225-240 | while decoder and server agree on the bracket, handling any packets' bytes is running the assembler on their meanings, faults included |
| Resend.OrdinaryResendIff | walbox/client.py:70-77 | from any client whose decoder and assembler agree, the resent bytes of Begin, table descriptions and rows, Commit emit the committed transaction exactly when no ordinary transaction and no bucket of its xid was left behind, and no bracket was left open unless nothing lies between Begin and Commit |
| Resend.InsideBracket | walbox/client.py:225-240 | with a bracket left open, resent bytes that raise nothing emit the transaction without any change, so its rows are lost to it |
| Resend.TakenFresh | walbox/client.py:70-77 | a client without leftovers emits every resent transaction as committed |
| Resend.DivertedResend | walbox/transaction.py:155-172 | on the assembler alone: with a bracket left open, rows that reach it land in the other bucket and the transaction comes out empty |
| Resend.StreamedResendIff | walbox/transaction.py:269-274 | the resent bytes of a streamed transaction, table descriptions and savepoint aborts included, emit it as committed exactly when none of it was left behind, whatever bracket was left open |
| Resend.LostInsideBracket | walbox/client.py:225-240 | a concrete run on bytes: after a drop inside a bracket, another transaction's resent Begin, table description and first Insert end in an error, whatever follows: a `DecodeError` when the schema name has four bytes or more |
| Client.CheckpointStore.Load | walbox/checkpoint.py:102-129 | the stored position, nothing, or an error for a negative one |
| Client.CheckpointStore.Save | walbox/checkpoint.py:183-191 | the position is overwritten, whatever it was |
| Client.CheckpointHandle.Save | walbox/abc.py:78-104 | a position above the maximum is refused and changes nothing; otherwise it is stored and the client told |
| Client.Client.constructor | walbox/client.py:61-78 | a fresh client: nothing queued, positions 0, fresh decoder and assembler |
| Client.Client.Resume | walbox/client.py:138-145 | the start position is one past the checkpoint, and the durable position is the checkpoint itself even when that lowers it |
| Client.Client.HandleXLogData | walbox/client.py:225-240 | the written position is raised first, then decoder and assembler advance as the pipeline function says, also on errors |
| Client.Client.HandleFrame | walbox/client.py:214-240 | every frame's effect on positions, decoder and assembler, and the reply a keepalive asks for, with the raised position in it |
| Client.Client.ReceiveAll | walbox/client.py:204-212 | the receiver's loop completes the transactions of the frames read, in order, and stops with the state reached at the first frame that raises or when closing |
| Client.Client.PutNowait | walbox/client.py:295-300 | queued at the end; or refused with nothing changed, a full queue told apart from one that was shut down |
| ClientState.PutAccepted | walbox/client.py:295-300 | a transaction is queued exactly when the client is open and fewer than the bound are queued, last and with nothing else changed |
| Client.Client.Get | walbox/client.py:303-308 | the head is taken; or nothing changes, an empty queue told apart from one that was shut down |
| Client.Client.RecordDurableProgress | walbox/client.py:331-334 | the durable position never goes down |
| Client.Client.StatusUpdate | walbox/client.py:365-374 | the update carries the written position, and the durable one as flushed and applied |
| Client.Client.Close | walbox/client.py:102-114 | the client is closing and its queue is empty |
| Delivery.FirstSent | walbox/client.py:156 | the server starts at the first commit record at or after the position, skipping only earlier ones |
| Delivery.ChainNext | walbox/client.py:225-240 | receiving one more keeps "every pending transaction is preceded by all earlier unfinished ones" |
| Delivery.ChainTail | walbox/client.py:303-309 | so does finishing the head |
| Restarts.WriteReaches | walbox/abc.py:95-104 | a save allowed to a handler covers no transaction later than its own |
| Restarts.ResumeCovered | walbox/client.py:138-145 | a new connection skips only transactions at or below a durable or confirmed position |
| Restarts.StrongStep | walbox/client.py:116-334 | every step of client, server and handler keeps "at or below a durable position implies handler done", drops included when safe |
| Restarts.StrongNoLoss | walbox/client.py:138-156 | that invariant is enough for no loss |
| Restarts.NoLossOverRestarts | walbox/client.py:138-156 | in every run of fresh sessions with crashes anywhere, each transaction at or below the checkpoint or confirmed flush had its handler return or saved it itself |
| Restarts.DropSafeChain | walbox/client.py:75-77 | the drop condition is the same as the remaining queue being in order on its own |
| Restarts.UnsafeDropLoses | walbox/client.py:129-136 | from every state where the condition fails there is a continuation that loses a transaction |
| Restarts.DropHarmlessIff | walbox/client.py:116-156 | losing the connection is harmless over all later sessions exactly when the condition holds |
| Restarts.WeakStep | walbox/client.py:116-334 | every step, any drop included, keeps "what was handed over is a prefix and covers all durable positions" |
| Restarts.HandedIsPrefix | walbox/client.py:75-156 | in every run, connections lost at any moment between transactions included, the transactions handed over are a prefix of the commit order, and none at or below the checkpoint or confirmed flush was never handed over |
| Feedback.HonestRun | walbox/client.py:331-374 | with saves that never go down, every update ever sent claims at most the stored checkpoint |
| Feedback.LowSaveOverstates | walbox/client.py:331-334 | after one save the next update claims more than is stored exactly when that save went below the durable position |
| Feedback.StatusOnWire | walbox/client.py:365-374 | the three positions the server reads are the written and durable ones, each plus one |
| Feedback.StepSends | walbox/client.py:365-383 | updates are sent at a wait, on request and at the end of a shutdown, and nowhere else, each with the written position just reached and the durable one |
| Feedback.ConfirmsWhatIsRead | walbox/protocol.py:148-155 | the server's confirmed flush moves to what it reads in an update and never back |
| Feedback.RisingRun | walbox/client.py:225-227 | within a connection the written and flushed positions sent never go down |
| Feedback.FeedbackSafe | walbox/client.py:365-377 | from the start, as read from the bytes: flushed equals applied and is at most one above the checkpoint, and later updates of the connection carry no lower positions |
| Feedback.BoundedInOrder | walbox/client.py:295-321 | at every moment the queue is within its bound, at most two more are unfinished, and dispatched, then queued, then held are what an earlier connection left over, then the emitted order |
| Feedback.WaitsOnlyWhenFull | walbox/client.py:295-300 | the receiver starts to wait only when the queue is at its bound, and goes on only when it is below |
| Feedback.InitInOrder | walbox/client.py:61-78 | the start satisfies what the three results above need |
| Feedback.NoDispatchAfterClose | walbox/client.py:102-114 | after close the client never starts another handler and never connects again |
| Feedback.FinalStatusCoversSaves | walbox/client.py:178-185 | the last update of a clean shutdown covers every save of the connection, the in-flight handler's too |
| Feedback.ConfirmedRun | walbox/client.py:365-374 | in every run with rising saves the confirmed flush stays where it started or at most one above the checkpoint |
| Feedback.ResumeExactly | walbox/client.py:139-145 | in every such run, whenever the checkpoint is a transaction's commit LSN, a new connection requests its end LSN, the flushed position on the wire is the same number, and the server sends exactly from the next one on |
| Session.CommittedMatch | walbox/transaction.py:389 | over any history each committed transaction carries one less than the end of its own commit record, in order |
| Session.FramesComplete | walbox/client.py:204-240 | the receiver completes exactly what the payloads emit, however keepalives are strewn among them |
| Session.KeepaliveReply | walbox/client.py:376-383 | a keepalive is answered exactly when it asks for it, and the server reads from the answer the higher of the two written positions, and twice the durable one, each plus one |
| Session.WrittenHighest | walbox/client.py:225-227 | after any frames the written position is the highest of the positions they told and the one before |
| Session.ClosedReadsNothing | walbox/client.py:207 | a closing client reads nothing and completes nothing |
| Session.InSequenceRun | walbox/client.py:225-240 | within a connection the emitted places are consecutive from where the server started |
| Session.HistoryCompletes | walbox/client.py:204-240 | the frames of any history, read by a fresh client, complete exactly the committed transactions |
| Session.SessionDelivers | walbox/client.py:138-240 | over one connection the transactions completed from bytes are those the delivery protocol emitted, in order, each with the commit LSN of its place in the log |
| ConcurrentHandler.ConcurrentHandler.constructor | examples/concurrency.py:63-72 | no work and no failures |
| ConcurrentHandler.ConcurrentHandler.Route | examples/concurrency.py:148-159 | a relevant insert goes last on its entity's shard, waits without effect when it is full, or raises for want of an entity; others are skipped |
| ConcurrentHandler.ConcurrentHandler.TakeNext | examples/concurrency.py:111 | a worker takes the oldest payload of its own shard |
| ConcurrentHandler.ConcurrentHandler.TaskDone | examples/concurrency.py:112-123 | a failure is recorded and the worker is free again |
| ConcurrentHandler.ConcurrentHandler.CollectFailures | examples/concurrency.py:164-167 | the failures are reported once and cleared |
| Sharding.PublishedRows | examples/concurrency.py:148-155 | of the rows a server writes, those handled are exactly the ones inserted into public.published_table |
| Sharding.InsertsConcat | examples/concurrency.py:148-159 | the rows handled of several writes are those of each, in order |
| Sharding.EntityRead | examples/concurrency.py:157 | a row's entity is the text of its column entity_id, and there is none when that is missing, NULL or not sent |
| Sharding.BoundedShards | examples/concurrency.py:66-68 | for every schedule no shard's queue holds more than its bound |
| Sharding.DrainedIsFinished | examples/concurrency.py:161-162 | once all shards are drained, what was finished is what was fed, as multisets |
| Sharding.InvStep | examples/concurrency.py:106-169 | every step of feeder or worker keeps routing, order, the join barrier and the save gate |
| Sharding.InvRun | examples/concurrency.py:106-169 | so does every schedule |
| Sharding.EntityPrefix | examples/concurrency.py:92-104 | an entity's finished events are the first of its fed events, in order |
| Sharding.EntityOrder | examples/concurrency.py:92-159 | for every schedule an entity's finished events are the first of its input events, in input order, across transactions |
| Sharding.SaveAfterAll | examples/concurrency.py:161-169 | `checkpoint.save` is reached only when every insert of that transaction and all before had finished, none with an exception |
| Sharding.SavedComplete | examples/concurrency.py:136-169 | for every schedule, when a transaction is saved each entity's finished events are exactly those of all transactions up to it, in input order |

## Left out

- Bytes.CStringRoundTrip: text is bytes here; UTF-8 decoding, and its errors, are not modelled.
- WireRoundTrip.DecodeEncode: encode-then-decode only; decoders slice without length checks, so truncated or over-long payloads with variable-length fields do not re-encode to themselves.
- LsnText.FormatParseRoundTrip: `int(s, 16)` also accepts signs, underscores, spaces and a prefix; only plain digits are parsed here, which is all that the printed form contains.
- Client.CheckpointStore.Save: one cell stands for the SQL table; pools, schema creation and `save(connection=...)`, whose write becomes durable only with the caller's commit, are not modelled.
- Client.Client.HandleFrame: metrics counters, logging and error contexts are left out, and the time is a parameter.
- TransactionAssembler.TransactionAssembler.Feed: exceptions are values; their messages and contexts are left out.
- Restarts.NoLossOverRestarts: awaits are modelled as steps between which anything may happen; saves below 0 and handles used after their handler ended are not modelled, nor is a handler that swallows its cancellation.
- Restarts.DropHarmlessIff: transactions are whole here, so a drop falls between transactions; a drop in mid-transaction is what the `Resend` module states, for one resent transaction at a time.
- Restarts.HandedIsPrefix: drops fall between transactions here too; see `Resend` for the others.
- Resend.OrdinaryResendIff: Type, Origin and logical Message payloads between the rows are not part of a resent transaction here; what a Truncate of some tables decodes to under a stale flag is covered by the outcome of the whole transaction only.
- Session.SessionDelivers: the queue and the handler are on the side of `Delivery`; the frames are those of a connection that is not lost.
- Feedback.RisingRun: no bound on the silence between updates; a read that completes returns before any update is sent.
- Sharding.EntityOrder: MD5 is any fixed function into the shards; a missing `entity_id` and a NULL one, which raise different exceptions, are one case; `stop`, cancellation inside `handle`, and a handler object used again after `handle` raised are not covered.
- Client.Client.ReceiveAll: ends where a transaction would be queued; waiting on a full queue, and the `_consume_loop`, `_process` and `run` coroutines, are the order in which the steps of `Delivery` are enabled.
- `ReplicationTransport`: sockets, libpq and slot creation; replaced by the abstract server and the step that drops the connection.
- Option validation, the builder, backoff, `pg_now_micros` and the other examples: they would only add easy members.
- StreamAbort with the additional fields of protocol version 4, and two-phase commit messages, which the decoder refuses.
