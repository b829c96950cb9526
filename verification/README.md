# Verified models of the hard parts of the Akka and Finagle examples

This project models, in Dafny 4.11, the parts of the repository that carry real state or arithmetic and
proves what they are for. `dafny verify dfyconfig.toml` checks everything.

* **jQuery callback lists, Deferred and `when`** (`jquery.js`, one minified line). `CallbackScope` is the
  closed-over state of a list (`list`, `stack`, `memory`, `firing`, `firingStart`, `firingLength`,
  `firingIndex`) with its splicing firing loop. Every user callback runs a script: any finite sequence of
  operations on any of the lists, including the one that is being fired. `CallbackSpec` describes the same
  runs without indices: a list is a line cut in two where the round stands. The class is proved to refine
  it. Properties of all runs: what `add` and `remove` do to a list (`CallbackRegistration`), whom a round
  calls (`CallbackRounds`, `CallbackTurns`), what `empty` does to it (`CallbackEmpty`), how firing ends
  (`CallbackFiring`), that everything asked for is done (`CallbackAsked`), and what a Deferred does with its
  state (`DeferredSpec`) and with the functions it is given (`DeferredCalls`). `When` is the counter of
  `when`.
* **Sizzle's document order** (`jquery.js`): the comparator made of ancestor chains and sibling walks is
  preorder.
* **The prettifier** (`prettify.js`): span extraction (`SourceSpans`) and its meaning by places in
  the document (`SourceOrder`), the lexer with its cache and embedded languages, whose lexers call each other
  (`Lexer`), the two in-place compaction passes (`Decorations`), the two-cursor merge (`Recombine`), all
  stages together (`Prettify`), and the case folding of character classes (`CharRanges`).
* **The Thrift stubs** (`Haver.java`): a wire of tokens with nested values (`Wire`), the argument and result
  structs (`ThriftStructs`), dispatch, client and their composition (`ThriftService`).
* **The actor protocols**: the benchmark (`Benchmark`), the Pi master and workers (`Pi`), the word count
  (`WordCount`); answers that arrive in any order are described in `Arrivals`.
* **Smaller cores**: the table of contents (`Toc`), two array functions of underscore.js (`Underscore`) and
  the polynomial easing curves (`Easing`).

Objects whose methods update them are classes with the source's fields; the loops are loops. What they
compute is a specification function, and the theorems are lemmas about that function.

Parameters stand for what the code gets from outside: the scripts of user callbacks, the tokeniser and the
match groups, the service implementation, the clock, and the order in which messages arrive.

Some promises of the code are false as they stand. The code is modelled as it is, and the exact condition is
proved:

* a round calls every entry that it is about and that is not taken off the list before its turn, except those
  that join behind its back (`RoundCallsEachEntryOnce`); nobody is taken off whom no operation asks to go
  (`OnlyWhoIsAskedToGoLosesATurn`), and nobody joins behind the back of a round as long as callbacks do not
  call `empty` (`RoundsWithoutEmptyForgetNobody`). What `empty` does to a round is said exactly: as the last
  act of a callback it ends the round, with an error just when somebody was waiting (`EmptyEndsTheRound`), and
  what is added afterwards goes without a turn for as many entries as the round has already passed
  (`EmptyThenAdd`);
* the word count never counts the last word (`LastWordIsLost`);
* the benchmark ends only if bursts are not empty or nothing is to be sent (`SomeRunFinishes`), and the Pi
  master announces nothing if it has no chunks (`AnnouncesWhenThereIsWork`);
* halving an interval by a 32-bit shift works up to 2^30 elements (`MidpointIsBetween`), and in every longer
  array the search never answers with the end (`SortedIndex`); the fast path of `uniq` is right just when
  equal elements stand together (`ShortCutIsRight`);
* a successful `hi` that returns null arrives as a missing result (`NullStringIsMissing`);
* headings are numbered without repetition if none of them skips a level, which is also when all of them are
  shown with a number for each level (`ShownInFull`, `NumbersAreDistinct`); two headings of a document show
  the same number just when the earlier one leaves out a certain level and the counts below agree
  (`SameNumber`); and the number of one heading is never repeated, however the document goes on, just when
  no level was left out of it (`NumberIsSafe`);
* what a lexer hands back to itself of a token is shorter just when the first group is not empty, or the
  second is neither empty nor the whole token (`RecursionIsOnShorterText`); a lexer is sent back to the text
  it is at work on just when that text is one such token (`LexesTheSameTextAgain`).

## Model

| member | source | states |
|---|---|---|
| CallbackScope.Scope.Add | akka_doc/_static/jquery.js:2 | `add` on a list that may be firing, for functions, nested arrays of arguments and values to be ignored: the entries go behind the waiting ones, the running round is extended, a list with memory fires the new ones at once; the index form refines the line form |
| CallbackScope.Scope.Splice | akka_doc/_static/jquery.js:2 | `remove` inside a round: all registrations go, the end of the round shrinks, the index moves back exactly for those already called |
| CallbackScope.SpliceList | akka_doc/_static/jquery.js:2 | the removal loop on the live indices: both halves of the line lose the function, length and index fit again, the early exit of `unique` lists included |
| CallbackScope.Scope.FireWith | akka_doc/_static/jquery.js:2 | a firing during a round is postponed, on a `once` list dropped, otherwise it starts a round |
| CallbackScope.Scope.Fire | akka_doc/_static/jquery.js:2 | one whole round with everything its callbacks do, `stopOnFalse`, memory and what happens after the round, equals the line specification |
| CallbackScope.Scope.Settle | akka_doc/_static/jquery.js:2 | after a round: postponed firings, disabling of a stopped list, clearing of a `once` list |
| CallbackScope.Scope.Disable | akka_doc/_static/jquery.js:2 | list, queue and memory are dropped; a round in progress finds nobody waiting |
| CallbackScope.Scope.Lock | akka_doc/_static/jquery.js:2 | the queue is dropped, and without a remembered firing the list is disabled |
| CallbackScope.Scope.Empty | akka_doc/_static/jquery.js:2 | the list becomes a new empty one, while length and index of a round in progress stay what they were |
| CallbackRegistration.AddRegisters | akka_doc/_static/jquery.js:2 | `add` on a list that is firing, or remembers no firing: the functions passed, on a `unique` list the first occurrences of those it does not have, are registered at its end in the order given, where a round in step will come to them; nobody is called and nothing else changes |
| CallbackRegistration.AddFires | akka_doc/_static/jquery.js:2 | `add` on an idle list that remembers a firing: the same registrations, and then a round with the remembered arguments that is about exactly them and whoever joins during it |
| CallbackRegistration.UnseenIsDistinct | akka_doc/_static/jquery.js:2 | what a `unique` list takes: every function passed that it does not have, and none twice |
| CallbackRegistration.RemoveTakesOff | akka_doc/_static/jquery.js:2 | `remove` on any list, firing or not: a registration stays if and only if its function is not removed, the others keep their order, their side of the round and everything else |
| CallbackRegistration.TakenOffIsNeverCalled | akka_doc/_static/jquery.js:2 | whoever is on a list, firing or not, when its function is removed or the list is emptied or disabled, is never called by it again and never on it again, in any later run |
| CallbackRounds.RoundCallsEachEntryOnce | akka_doc/_static/jquery.js:2 | the calls of a round, with its arguments, are in list order and each once the entries from its start on and those that joined during it, except exactly those that were taken off the list before their turn and those that joined behind its back; whoever is taken off is not called any more; nobody on the list is forgotten if and only if everybody who joined behind its back was taken off |
| CallbackTurns.OperationsTakeOff | akka_doc/_static/jquery.js:2 | which registrations lose their place in a running round: those of the removed functions, or everybody when the list is disabled, emptied or locked without memory; adding and firing take off nobody, and none of them calls (`RemoveTakesOff` speaks of any list) |
| CallbackTurns.OnlyWhoIsAskedToGoLosesATurn | akka_doc/_static/jquery.js:2 | whoever a round is about is called and stays listed, unless some script or some listed function of a Deferred asks for the removal of its function or of the whole list |
| CallbackTurns.UndisturbedRoundsCallEverybody | akka_doc/_static/jquery.js:2 | if nothing asks anybody to go, a round calls everybody from its start on and everybody who joins, in that order |
| CallbackRounds.RoundThenPostponed | akka_doc/_static/jquery.js:2 | firing is one round after another, the later ones for the postponed arguments in the order of the queue; the list remembers the arguments of the last, if it remembers anything |
| CallbackRounds.PostponedFiringsAreServedInOrder | akka_doc/_static/jquery.js:2 | the calls made by a firing are those of such rounds concatenated: the first for its own arguments, then one for each postponed firing, in that order, none lost unless the list was locked or disabled |
| CallbackAsked.EveryFiringGetsItsRound | akka_doc/_static/jquery.js:2 | if callbacks do not call `empty`, the arguments of these rounds are those of the firing and of all firings of that list in the scripts of the callbacks that ran, on whatever list, each as often as it was asked for |
| CallbackRounds.OnceListCallsNothingTwice | akka_doc/_static/jquery.js:2 | over its whole life a `once` list calls no registration twice and calls in registration order |
| CallbackAsked.EveryFunctionPassedIsRegistered | akka_doc/_static/jquery.js:2 | over a whole run without `empty`, the registrations made on a list that is not `unique` nor disabled are the functions passed to `add` from outside and by the callbacks that ran, each as often as it was passed |
| CallbackFiring.OnceListFiresOnce | akka_doc/_static/jquery.js:2 | the first firing of a `once` list is a single round, and every later one, whatever happens in between, does nothing |
| CallbackFiring.LockedListFiresNoMore | akka_doc/_static/jquery.js:2 | `lock` drops the queue and keeps the rest of a list that remembers, disables any other, and no firing of it does anything in any later run |
| CallbackFiring.FalseEndsTheRound | akka_doc/_static/jquery.js:2 | with `stopOnFalse` a callback returning `false` is the last one called in its round, and the firing is not remembered |
| CallbackFiring.WhoWaitsWasStopped | akka_doc/_static/jquery.js:2 | if anybody still waits at the end of a round, the last callback called returned `false` on a `stopOnFalse` list |
| CallbackFiring.RoundCallsUpToFalse | akka_doc/_static/jquery.js:2 | the calls of any round are in order those it is about who kept their turn, all of them unless the list is `stopOnFalse` and the last one called returned `false` |
| CallbackRounds.EveryRunIsGood | akka_doc/_static/jquery.js:2 | the invariant behind these holds after every run of any calls with any scripts, `empty` included, and no round is left open unless the run ended in an error |
| CallbackEmpty.RoundsWithoutEmptyForgetNobody | akka_doc/_static/jquery.js:2 | if callbacks do not call `empty`, a round calls no missing entry, and calls exactly those it is about who were not taken off before their turn, whatever else they do |
| CallbackEmpty.RunsWithoutEmptyDoNotCrash | akka_doc/_static/jquery.js:2 | nor does any run of such callbacks, with `empty` called between rounds |
| CallbackEmpty.EmptyEndsTheRound | akka_doc/_static/jquery.js:2 | a callback whose last act is `empty` on its own list ends the round: by calling a missing entry if and only if the index stood before the recorded end, in a round in step if and only if somebody was waiting; otherwise quietly |
| CallbackEmpty.EmptyThenAdd | akka_doc/_static/jquery.js:2 | of the functions added after `empty` as many go without a turn as the round has passed positions, the others wait; so none if and only if it has passed none or nothing is added |
| CallbackEmpty.EmptyThenAddForgets | akka_doc/_static/jquery.js:2 | the instance: nobody was waiting, and the function added after `empty` is not called |
| CallbackEmpty.EmptyAloneCrashes | akka_doc/_static/jquery.js:2 | the instance: the first of several functions empties the list, and the round calls an entry that is not there |
| CallbackEmpty.DisabledListIsSilent | akka_doc/_static/jquery.js:2 | a list disabled between rounds never calls anything again in any run, even if `empty` gives it a new array |
| Deferred.Deferred.constructor | akka_doc/_static/jquery.js:2 | three lists with the state setter, the disabler of the opposite list and the lock of `progress` in front |
| Deferred.Deferred.Call | akka_doc/_static/jquery.js:2 | any public operation with any scripts keeps the Deferred in a sound phase, and a first firing of `done` or `fail` settles it with its arguments |
| Deferred.Deferred.Resolve | akka_doc/_static/jquery.js:2 | `resolve` settles a pending Deferred with its arguments and leaves a settled one as it is |
| DeferredSpec.EveryCallbackRunsOnceWithTheSettlement | akka_doc/_static/jquery.js:2 | in every run: while pending no callback has run; once settled every callback registered on the matching list, before, during or after, has run exactly once, in order, with the settlement's arguments, and none of the opposite list |
| DeferredCalls.EveryFunctionPassedIsCalled | akka_doc/_static/jquery.js:2 | every function passed to `done` of a Deferred that is resolved in the end, before, during or after, from outside or by a callback, is called exactly as often as it was passed, besides only the three of the Deferred itself; the same for `fail` of a rejected one; nothing is called on the opposite list |
| DeferredCalls.FunctionsAreCalledInTheOrderPassed | akka_doc/_static/jquery.js:2 | if callbacks add nothing to it, the list that settles calls them in the order in which they were passed |
| DeferredSpec.FirstSettlementWins | akka_doc/_static/jquery.js:2 | after the first settlement neither state nor arguments change whatever is called later |
| DeferredSpec.FiringAfterSettlementDoesNothing | akka_doc/_static/jquery.js:2 | firing a settled Deferred changes nothing at all |
| DeferredSpec.NoNotifyRoundAfterSettlement | akka_doc/_static/jquery.js:2 | the calls of `progress` after settlement are exactly those registered on it since, each once and in order, with what it remembered when the Deferred settled; none if it remembered nothing |
| When.When.constructor | akka_doc/_static/jquery.js:2 | for any number of arguments, plain, pending or already settled, counter, results and master are right after the subscription loop; a single promise is the master itself |
| When.When.Win | akka_doc/_static/jquery.js:2 | a delivered result goes to its place and counts down; at zero the master is resolved with all results |
| When.When.Lose | akka_doc/_static/jquery.js:2 | a lost argument rejects the master unless it is settled, and is never counted down |
| When.When.Deliver | akka_doc/_static/jquery.js:2 | after any delivery in any order the master is exactly the answer that the history calls for |
| When.ResolvesInArgumentOrder | akka_doc/_static/jquery.js:2 | if nothing is lost the answer is the results in argument order whatever the completion order |
| When.RejectsWithTheFirstLoss | akka_doc/_static/jquery.js:2 | otherwise it is the first rejection, never a resolution |
| When.AnswersOnlyWhenComplete | akka_doc/_static/jquery.js:2 | no answer before the last promise has delivered |
| When.AnswerIsFinal | akka_doc/_static/jquery.js:2 | an answer never changes |
| When.LossIsOwed | akka_doc/_static/jquery.js:2 | after a loss the counter can never reach zero |
| DomOrder.Compare | akka_doc/_static/jquery.js:3 | the comparator returns -1 exactly when the first node precedes the second in preorder, 1 when it follows, 0 and the duplicate flag for the same node |
| DomOrder.SiblingCheck | akka_doc/_static/jquery.js:3 | the sibling walk decides the order of two nodes of one row |
| DomOrder.PathLessIsPreorder | akka_doc/_static/jquery.js:3 | comparing two paths at the first step where they part is comparing positions in preorder |
| DomOrder.AncestorsComeFirst | akka_doc/_static/jquery.js:3 | every ancestor precedes its descendants |
| DomOrder.NextComesLater | akka_doc/_static/jquery.js:3 | a next sibling comes behind everything in its elder |
| CharRanges.FoldCase | akka_doc/_static/prettify.js:3 | collecting, sorting and merging gives sorted, disjoint, non-adjacent ranges that cover exactly the input and its ASCII case swaps |
| CharRanges.MergeRanges | akka_doc/_static/prettify.js:3 | the merge loop over sorted ranges keeps the covered set and reaches the normal form |
| CharRanges.NormalFormIsUnique | akka_doc/_static/prettify.js:3 | two normal forms that cover the same characters are equal |
| CharRanges.FoldTwice | akka_doc/_static/prettify.js:3 | folding a folded class changes nothing |
| SourceSpans.Extractor.Walk | akka_doc/_static/prettify.js:6-7 | the recursive walk appends exactly the chunks of the subtree, whose order and places `ChunksAreInDocumentOrder` gives |
| SourceOrder.ChunksAreInDocumentOrder | akka_doc/_static/prettify.js:6-7 | the chunks are what the nonempty text nodes and the breaking elements outside elements that are no code give, each once by its place: texts in document order, and a break behind all that its element contains and before all that follows |
| SourceOrder.UnixLinesConcat | akka_doc/_static/prettify.js:6-7 | preformatted text is normalised piece by piece wherever it is not cut inside a `\r\n` |
| SourceOrder.UnixLinesOf | akka_doc/_static/prettify.js:6-7 | each of the three line breaks becomes one `\n` and any other character stays, which with the row above fixes the result |
| SourceOrder.UnixLinesHaveNoReturn | akka_doc/_static/prettify.js:6-7 | no `\r` is left |
| SourceOrder.CollapseConcat | akka_doc/_static/prettify.js:6-7 | other text is normalised piece by piece wherever it is not cut inside white space |
| SourceOrder.CollapseOf | akka_doc/_static/prettify.js:6-7 | a run of white space becomes one space and any other character stays, which with the row above fixes the result |
| SourceOrder.CollapsedText | akka_doc/_static/prettify.js:6-7 | no two white spaces are left together, all of them are spaces, and everything else is still there in its order |
| SourceSpans.LayoutIsText | akka_doc/_static/prettify.js:6-7 | the text found at a span's position is that span's own text |
| SourceSpans.ExtractedSpansFit | akka_doc/_static/prettify.js:6-7 | starts are strictly increasing from 0 and within the source, whose final line break is dropped |
| Lexer.Decorate | akka_doc/_static/prettify.js:7-8 | the lexer of any language, calling itself and the lexers of embedded languages, with its style cache, gives what classifying every token afresh gives |
| Lexer.LexCallsItself | akka_doc/_static/prettify.js:7-8 | that is what the tokens give when every remainder goes to the lexer itself and every embedded text to the lexer of its language |
| Lexer.LexFits | akka_doc/_static/prettify.js:7-8 | for all languages at once, however embedded in each other: the output starts at the base position, is non-decreasing and stays inside the text |
| Lexer.EveryCharacterHasItsStyle | akka_doc/_static/prettify.js:7-8 | every character of every text has in the flat output the style that the patterns give it: that of its token, or of its place in an embedded text or in what surrounds it, at any depth |
| Lexer.PartsSpellTheToken | akka_doc/_static/prettify.js:8 | the parts of an embedding token whose second group ends it, with the first right before, are the token again: in the middle the first group, behind it the second |
| Lexer.EmbeddedTextHasItsStyle | akka_doc/_static/prettify.js:8 | a character of an embedding token is in the style that the embedded language gives it just within the first group, which is placed right before the second, or where it occurs first if there is none; and in the style that the lexer itself gives what stands before and behind |
| Lexer.LexedFits | akka_doc/_static/prettify.js:7-8 | one text: the output starts at the base position, is non-decreasing and stays inside, given handlers of the parts that do the same |
| Lexer.TokenHasItsStyle | akka_doc/_static/prettify.js:7-8 | every character of a token that embeds nothing is in the style of its pattern |
| Lexer.PartKeepsItsStyle | akka_doc/_static/prettify.js:7-8 | what surrounds an embedded part does not change the styles inside it |
| Lexer.RecursionIsOnShorterText | akka_doc/_static/prettify.js:8 | both remainders of a token are shorter than it if and only if the first group is not empty, or the second is neither empty nor the whole token; otherwise the token itself is handed back |
| Lexer.LexesTheSameTextAgain | akka_doc/_static/prettify.js:8 | the lexer is called again on the text it is at work on if and only if that text is one token whose remainders are not shorter |
| Decorations.DropHiddenInPlace | akka_doc/_static/prettify.js:16 | the first pass leaves in place exactly the entries whose position differs from the next one's or the end of the text |
| Decorations.JoinTwinsInPlace | akka_doc/_static/prettify.js:16 | the second pass leaves in place the first entry of every run of equal styles |
| Decorations.CompactionKeepsStyles | akka_doc/_static/prettify.js:16 | both passes make positions strictly increasing, leave no equal neighbours, and change the style at no position of the text |
| Recombine.Merge | akka_doc/_static/prettify.js:16-17 | the merge ends with every span finished: its text is cut without gap or overlap into pieces inside one span and one decoration, each of the class in force |
| Recombine.MergeTurn | akka_doc/_static/prettify.js:16-17 | every turn goes on to the nearer end, advances unless the span is finished, and keeps both cursors on the span and the decoration in force |
| Recombine.PiecesSpellTheSource | akka_doc/_static/prettify.js:17 | pieces that cover a stretch concatenate to the source text of it |
| Prettify.Highlight | akka_doc/_static/prettify.js:15-17 | the stages put together, with the language picked by name and text: every span of the extracted source is wrapped by the decorations that its lexer gave |
| Prettify.TextIsPreserved | akka_doc/_static/prettify.js:6-17 | the pieces of a text node spell its normalised text, that of the last node without its final line break |
| Prettify.EveryCharacterGetsItsClass | akka_doc/_static/prettify.js:7-17 | every character of a text node, embedded or around embedded text, ends in an element of exactly the class its patterns give it |
| Prettify.CharacterGetsTheClassOfItsToken | akka_doc/_static/prettify.js:7-17 | so a character of a token that embeds nothing has the class of its pattern, never the undefined class |
| Wire.SkipConsumesOneValue | finagle-java-example/src/main/java/jghoman/Haver.java:1593 | skipping consumes exactly one written value, however deeply nested |
| ThriftStructs.AddArgs.Read | finagle-java-example/src/main/java/jghoman/Haver.java:1572-1607 | the read loop on any token stream: the error of a broken one, otherwise fields and isset bits set by the known fields of the expected type, all others unchanged |
| ThriftStructs.AddArgs.Write | finagle-java-example/src/main/java/jghoman/Haver.java:1609-1621 | both fields are written in order and closed |
| ThriftStructs.IntResult.Read | finagle-java-example/src/main/java/jghoman/Haver.java:1866-1893 | the same for the result of `add` |
| ThriftStructs.StringResult.Read | finagle-java-example/src/main/java/jghoman/Haver.java:1220-1246 | the same for the result of `hi` |
| ThriftStructs.ReadsLastOccurrences | finagle-java-example/src/main/java/jghoman/Haver.java:1572-1607 | any well-formed struct, with unknown ids, wrong types, repeats and nested values, is consumed exactly and gives the last correctly typed values |
| ThriftStructs.LastTypedIsLast | finagle-java-example/src/main/java/jghoman/Haver.java:1580-1600 | a known field is present if and only if it occurs with the expected type, with the value of its last such occurrence |
| ThriftService.AddArgsRoundTrip | finagle-java-example/src/main/java/jghoman/Haver.java:1572-1621 | reading written arguments gives them back |
| ThriftService.WriteThenRead | finagle-java-example/src/main/java/jghoman/Haver.java:1507-1621 | one struct written and read into another makes them equal, with both fields marked as set whatever they were |
| ThriftService.Service.Apply | finagle-java-example/src/main/java/jghoman/Haver.java:782-812 | dispatch by name on any request: a broken request raises its error, readable arguments give exactly the reply of their method, or of an unknown one; malformed arguments are reported, or raise if the message cannot be read to its end |
| ThriftService.Service.HandleAdd | finagle-java-example/src/main/java/jghoman/Haver.java:624-700 | arguments, call of the implementation, and a reply or an internal error with the request's sequence id; cut-off arguments raise, malformed ones as above |
| ThriftService.Service.HandleHi | finagle-java-example/src/main/java/jghoman/Haver.java:546-622 | the same for `hi` |
| ThriftService.DispatchWellFormed | finagle-java-example/src/main/java/jghoman/Haver.java:782-812 | for well-formed arguments the reply is the implementation's result at the last typed arguments, INTERNAL_ERROR if it fails, UNKNOWN_METHOD for other names |
| ThriftService.ReplyEchoesTheRequest | finagle-java-example/src/main/java/jghoman/Haver.java:782-812 | every reply, also a failure, carries the name and sequence id of its request |
| ThriftService.IntArrives | finagle-java-example/src/main/java/jghoman/Haver.java:158-176 | a client that expects one sequence number and gets the server's reply to another sees the result or failure of `add` if and only if the numbers agree or the implementation failed; otherwise it refuses with BAD_SEQUENCE_ID |
| ThriftService.StringArrives | finagle-java-example/src/main/java/jghoman/Haver.java:121-139 | the same for `hi`, a null result being reported as missing |
| ThriftService.ReceiveAdd | finagle-java-example/src/main/java/jghoman/Haver.java:158-176 | so does `recv_add` on a server's reply to any request |
| ThriftService.ReceiveHi | finagle-java-example/src/main/java/jghoman/Haver.java:121-139 | so does `recv_hi` |
| ThriftService.NullStringIsMissing | finagle-java-example/src/main/java/jghoman/Haver.java:121-139 | a successful `hi` arrives as a value if and only if it is not null |
| ThriftService.ServiceToClient.Add | finagle-java-example/src/main/java/jghoman/Haver.java:360-388 | stub and server composed return `iface.add(a, b)`, or INTERNAL_ERROR if the implementation fails, for all arguments |
| ThriftService.ServiceToClient.Hi | finagle-java-example/src/main/java/jghoman/Haver.java:331-358 | the same for `hi` |
| ThriftService.CallAdd | finagle-java-example/src/main/java/jghoman/Haver.java:141-176 | the synchronous client counts its sequence id up, with 32-bit wrap-around, and its out-of-sequence check never fires on the server's own reply |
| Benchmark.Sender.SendBatch | akka-scala-example/src/main/scala/yuan/example/akka/remote/benchmark/Sender.scala:114-118 | the smaller of burst and remaining is sent, nothing if it is not positive, and the rest returned |
| Benchmark.Sender.Active | akka-scala-example/src/main/scala/yuan/example/akka/remote/benchmark/Sender.scala:64-109 | what goes on the wire for every message of the active behaviour; the start time changes only at Start, and the longest round trip is the maximum of the old one and a Continue's |
| Benchmark.StepHolds | akka-scala-example/src/main/scala/yuan/example/akka/remote/benchmark/Sender.scala:54-118 | the protocol's invariant is kept by every delivery, in every order the two channels allow, and by messages from outside |
| Benchmark.EveryRun | akka-scala-example/src/main/scala/yuan/example/akka/remote/benchmark/Sender.scala:64-118 | in every run an active sender has exactly one of a pending warm-up, one token and a shutdown; `remaining` plus the payloads sent is the total; a token's `n` counts the payloads since its start time; when it is back everything sent is consumed |
| Benchmark.StepsUseUpWork | akka-scala-example/src/main/scala/yuan/example/akka/remote/benchmark/Receiver.scala:18-22 | every delivery, in any state, uses up work, so runs cannot go on for ever |
| Benchmark.RunsAreBounded | akka-scala-example/src/main/scala/yuan/example/akka/remote/benchmark/Sender.scala:64-118 | no run without outside messages is longer than the work in its first state |
| Benchmark.QuietRunsAreComplete | akka-scala-example/src/main/scala/yuan/example/akka/remote/benchmark/Sender.scala:97-103 | an active run that cannot go on has handled Done after exactly the total of payloads behind the warm-up burst, all consumed |
| Benchmark.EveryRunCanFinish | akka-scala-example/src/main/scala/yuan/example/akka/remote/benchmark/Sender.scala:54-118 | every run that has found the receiver extends to a finished one |
| Benchmark.SomeRunFinishes | akka-scala-example/src/main/scala/yuan/example/akka/remote/benchmark/Sender.scala:69-95 | some run finishes if and only if bursts hold at least one message or there is nothing to send |
| Pi.CalculatePiFor | akka-scala-example/src/main/scala/yuan/example/akka/wordCount/Pi.scala:19-24 | the accumulator loop adds up the terms of its chunk |
| Pi.Master.Calculate | akka-scala-example/src/main/scala/yuan/example/akka/wordCount/Pi.scala:43-44 | one piece of work for every chunk |
| Pi.Master.Result | akka-scala-example/src/main/scala/yuan/example/akka/wordCount/Pi.scala:45-53 | add, count, and at the last answer announce and stop |
| Pi.OrderDoesNotMatter | akka-scala-example/src/main/scala/yuan/example/akka/wordCount/Pi.scala:42-54 | for every order of arrival nothing is announced early, and then exactly one number, the sequential sum of all terms |
| Pi.AnnouncesWhenThereIsWork | akka-scala-example/src/main/scala/yuan/example/akka/wordCount/Pi.scala:42-54 | something can be announced if and only if there is at least one chunk |
| Pi.LaterSumsAreNear | akka-scala-example/src/main/scala/yuan/example/akka/wordCount/Pi.scala:19-24 | all longer sums are within 4/(2n+1); even sums are below and odd sums above them |
| Pi.AnnouncedIsNear | akka-scala-example/src/main/scala/yuan/example/akka/wordCount/Pi.scala:42-54 | the announced number is that near to every longer sum |
| Arrivals.HowMany | akka-scala-example/src/main/scala/yuan/example/akka/wordCount/Pi.scala:47-48 | as many different answers as requests are the answers to all of them, which is what counting relies on |
| WordCount.CountWords | akka-scala-example/src/main/scala/yuan/example/akka/wordCount/WcWithAkka.scala:116-125 | the worker's table has exactly the words of its slice with their numbers |
| WordCount.CountIsMultiplicity | akka-scala-example/src/main/scala/yuan/example/akka/wordCount/WcWithAkka.scala:116-125 | the number of a word is how often it occurs |
| WordCount.MergeRes | akka-scala-example/src/main/scala/yuan/example/akka/wordCount/WcWithAkka.scala:103-111 | merging adds the numbers of both tables, in whatever order the entries come |
| WordCount.Master.Map | akka-scala-example/src/main/scala/yuan/example/akka/wordCount/WcWithAkka.scala:71-85 | one slice for every worker, the last one with its own end |
| WordCount.Master.Reduce | akka-scala-example/src/main/scala/yuan/example/akka/wordCount/WcWithAkka.scala:87-97 | merge, count, and at the last answer announce and stop |
| WordCount.PartsMissOnlyTheLastWord | akka-scala-example/src/main/scala/yuan/example/akka/wordCount/WcWithAkka.scala:73-83 | for any text and any number of workers the slices concatenate to all words but the last |
| WordCount.OrderDoesNotMatter | akka-scala-example/src/main/scala/yuan/example/akka/wordCount/WcWithAkka.scala:87-111 | for every order of arrival exactly one table is announced, after the last answer: that of the concatenated slices |
| WordCount.LastWordIsLost | akka-scala-example/src/main/scala/yuan/example/akka/wordCount/WcWithAkka.scala:75-76 | it is the table of the whole text if and only if there is no text |
| Toc.Contents.AppendToToc | akka_doc/_static/toc.js:108-123 | the loop that moves `parent` down and makes missing lists appends at the level asked for |
| Toc.TocIsInDocumentOrder | akka_doc/_static/toc.js:37-57 | the labelled entries in preorder are the headings in document order, each as deep as its level |
| Toc.UpdateNumeration | akka_doc/_static/toc.js:73-81 | the counter of the level grows, deeper ones are reset, higher ones stay |
| Toc.CountsByOne | akka_doc/_static/toc.js:73-81 | the first heading on a level behind one above it has counter one there, the next on the same level one more, with the same counters above |
| Toc.NumberingGrows | akka_doc/_static/toc.js:73-81 | in a whole document every heading's counters come lexicographically after all earlier ones |
| Toc.ShownInFull | akka_doc/_static/toc.js:73-103 | every heading of a document shows a number for each of its levels if and only if none skips a level, below the excluded top levels |
| Toc.NumbersAreDistinct | akka_doc/_static/toc.js:73-103 | in a document that skips no level no two headings show the same numbers |
| Toc.FullNumbersAreUnique | akka_doc/_static/toc.js:73-103 | a heading shown in full differs from every later one, whatever levels those skip |
| Toc.SameNumber | akka_doc/_static/toc.js:73-103 | two headings of a document show the same number if and only if the earlier one leaves out the highest level that comes behind it up to the later one, and shows of the levels below what the later one shows when counting starts anew behind the earlier one |
| Toc.NumberIsSafe | akka_doc/_static/toc.js:73-103 | the number of a heading never comes again, however the document goes on, if and only if it is shown in full |
| Toc.SkippedLevelsCollide | akka_doc/_static/toc.js:93-103 | the instance: levels 1, 3, 2 show the same numbers twice |
| Underscore.SortedIndex | akka_doc/_static/underscore.js:6 | up to 2^30 elements the smaller keys end just before the answer and no smaller key is at it, so in a sorted array it parts the smaller keys from the others; in any longer array the answer is never the end, however small the keys |
| Underscore.LeftmostInsertion | akka_doc/_static/underscore.js:6 | inserting there keeps a sorted array sorted, and nowhere further left does |
| Underscore.MidpointIsBetween | akka_doc/_static/underscore.js:6 | the 32-bit midpoint lies between its bounds for all bounds up to n if and only if n is at most 2^30 |
| Underscore.ShortCutIsRight | akka_doc/_static/underscore.js:7-8 | the fast path gives the same array as the full scan if and only if equal elements stand together |
| Underscore.FirstOccurrencesInOrder | akka_doc/_static/underscore.js:7-8 | the full scan keeps every element once, in the order of first occurrences |
| Underscore.FastKeepsHeadsOfRuns | akka_doc/_static/underscore.js:7-8 | the fast path keeps an element just when it differs from the one before it |
| Underscore.SortedNumbers | akka_doc/_static/underscore.js:7-8 | on sorted numbers it does, and the result is free of duplicates with the same elements |
| Easing.OutMirrorsIn | akka_doc/_static/effects.core.js:350-385 | every power ease-out is the point reflection of its ease-in |
| Easing.PowersRise | akka_doc/_static/effects.core.js:350-385 | ease-in and ease-out rise from b to b + c and stay between |
| Easing.Ends | akka_doc/_static/effects.core.js:350-385 | they start at b and end at b + c |
| Easing.Halfway | akka_doc/_static/effects.core.js:350-385 | at half of the time the ease-in curves have gone a quarter, an eighth, a sixteenth and a thirty-second of the way |
| Easing.BackMirrors | akka_doc/_static/effects.core.js:443-450 | the same reflection for the overshooting curves |
| Easing.BackEnds | akka_doc/_static/effects.core.js:443-450 | the overshooting curve starts at b, is back at b at s / (s + 1) of the time, and ends at b + c |
| Easing.BounceIsContinuous | akka_doc/_static/effects.core.js:459-469 | the arcs of the bounce meet at all three breakpoints |
| Easing.BounceStaysInside | akka_doc/_static/effects.core.js:456-469 | both bounces stay between b and b + c |

## Left out

- CallbackScope.Scope.RunOps: callbacks that throw. In the source an error that escapes a callback leaves `firing` set, so the list postpones every later firing for good; the model ends the run where the lists themselves raise an error.
- Deferred.Deferred.Call: `then`, `always`, `pipe` and `promise` are not modelled; they only register and forward.
- When.When.constructor: the `progress` part of `when` and settlements with several values at once; that an argument delivers at most once is `FirstSettlementWins`.
- DomOrder.Compare: the branches for browsers that number their nodes or compare positions themselves.
- CharRanges.FoldCase: parsing a class from its pattern and printing it back; the engine's sort is an insertion sort by the same comparator.
- Lexer.Decorate: the regular-expression engine; tokens, patterns and match groups are given for every language. A registered handler that is no lexer is any function with fitting decorations. Patterns with which a lexer would be sent back to the same text for ever are excluded (`Grounded`): a whole text that is one token with remainders that do not shrink, and languages that hand a whole text on in a circle.
- Prettify.Highlight: the carriage return put in for old Internet Explorer, line numbering, and the creation of the elements; a span's pieces and the rest of its node stand for the page.
- Wire.Skip: the skip routine and the binary encoding of the Thrift library are not part of this model; a value is a nested run of tokens.
- ThriftService.Service.Apply: how far the library has read when it meets malformed arguments, and so whether these are reported or raise; the message texts of protocol errors raised inside the library; futures that complete later, a future being its outcome.
- ThriftService.Service.HandleAdd: the same freedom for malformed arguments.
- ThriftService.Service.HandleHi: the same freedom for malformed arguments.
- ThriftStructs.AddArgs.Read: integers on the wire are not cut to 32 bits.
- Benchmark.Sender.Active: throughput figures, printing, watching and shutting down actor systems; clock readings are any non-decreasing numbers.
- Benchmark.SomeRunFinishes: negative burst sizes, with which the count of remaining messages grows until it wraps around.
- Pi.CalculatePiFor: floating-point rounding and the wrap-around of `2 * i + 1` beyond 32 bits.
- Pi.AnnouncedIsNear: says nothing about the limit of the series, only about all longer sums.
- WordCount.MergeRes: the hash map is updated in place and handed back; as a value here it is never shared.
- WordCount.OrderDoesNotMatter: zero workers, which fail on a division before any message, and the text form of the announced table.
- Toc.Contents.AppendToToc: `parent` is a depth below the last items, not a reference; element ids, and the list that numbering prepares in advance, are not modelled.
- Underscore.SortedIndex: keys are integers, so there is no value that compares with nothing.
- Underscore.Uniq: loose and strict equality are the same on the elements modelled.
- Easing.PowersRise: the ease-in-out forms and the exponential, circular, elastic and sine curves.
- The remaining files: event handling, CSS, AJAX, animation timers, deep equality of underscore.js, renumbering of back-references, the asynchronous Thrift client, RPC by reflection, cluster, storage and HTTP examples.
