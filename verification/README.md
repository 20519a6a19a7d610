# pycrocosm, verified

A model of the parts of an OpenStreetMap server that are easiest to get subtly
wrong, with proofs of what they promise. `dafny verify dfyconfig.toml` checks
the whole of it.

## What is modelled

**Overpass queries** (`overpass/evaluator.py`). `OverpassMeaning`,
`OverpassRecursion` and `OverpassScript` say what a script means: sets of
objects, worked out without limits, search strategies or caches. `MapSource`
reads the map through a database that may return any matches, as many as it was
asked for, and that takes an empty list of IDs as no restriction.
`RegionSearch`, `QueryParts`, `Shapes`, `Querying`, `Recursing` and `Evaluator`
do what the program does, with its branches, caches and guards, and give exactly
the meaning or an error. A map is *small* (`Roomy`) if all IDs that it knows of
fit the limits; on a small map no query is refused for size, so refusing
everything would not do. `OverpassAnswers` and `ScriptAnswers` say what answers
and results hold, object by object, in the map's own fields.

**The parser** (`overpass/ql.py`). `QlText`, `QlGrammar` and `QlScripts` say
what each part of the grammar reads from the remaining text. `QlParser` moves a
cursor, method by method, and agrees with them: each of its methods reads what
the grammar function that its contract names reads. `QlLexemes` says what these
come to for comments, strings and numbers. `QlPrinting` gives every well-formed
tree a text, and `QlInverse` shows that it is read back exactly. `QlShorthand`
gives it its shortest text, with all that may be left out left out, which
`QlShortRead` and `QlShortScripts` show is read as the same. `QlRefusals` has
what is refused.

**The edit notifier** (`notify/server.py`). It runs in one loop, so each stretch
of a task between two waits is one step. `NotifyProtocol` has the state, the
steps, and what may happen in between: the log grows, clients come, ask and go,
the map answers or fails. `NotifySafety`, `NotifyClients` and `NotifyChecks`
prove the invariant over all runs. `NotifyServer` has the objects, whose methods
make exactly these steps, so that all that is called on a notifier is a run.
What has been sent for a subscription, and which calls asked for a check, are
kept as history. `TokenBucket` has the request limit. `NotifyRequests` says what
clients get for their requests, in events and clients alone.

**Uploads** (`changeset/views.py`). `Changeset` says what a block of an upload
comes to, `Deletion` which objects may go, and `ChangesetUpload` does what
`upload_block` does, in place. `ChangesetIntegrity` proves what every run keeps.
`ChangesetEffects` says which blocks are carried out, and what an upload stores,
field by field.

**Extract updates** (`replicate/remoteupdate.py`). `EditLog` has the log,
`ActivityPages` the paging, `ExtractUpdate` the windows, groups and
transactions, and `WholeEdits` what comes of them however often they are
stopped. `ExtractRefusals` has what is refused.

**Replication paths** (`replicate/views.py`). `DiffPaths` has the numbers of a
diff's path and the catalogues.

## Where the code decides

- The first catalogue lists its first page even before the epoch, when that page
  is not found (`replicate/views.py` line 231). The model does the same.
- A time's path may end in 1000, which no catalogue lists: the same diff is listed
  as 000 of the next page.
- A check that is asked to go again before its task has first run forgets that,
  as the read of the map that matters is still to come (`notify/server.py` line 579).
- A column of CSV output that is quoted and begins with two colons cannot be told
  from a special field once it is read; it is printed quoted.

## Model

| member | source | states |
|---|---|---|
| ActivityPages.ServeStep | replicate/views.py:921-940 | One answer of the server's limit + 1 query and what it says to ask next: an answer that is not truncated is the whole range; a truncated one holds exactly limit records, `next_id` moves forward within the range, and its records followed by the range from `next_id` on are the whole range |
| ActivityPages.RemoteActivities | replicate/remoteupdate.py:82-101 | From a server that answers honestly, with any page size of at least 1, following `next_id` gives exactly the one-shot query; the only failure is an answer that says it is cut short without a `next_id` past where it began |
| ActivityPages.LocalActivities | replicate/remoteupdate.py:121-149 | Reading the table 100 rows at a time gives exactly the records of the range, in order |
| ExtractUpdate.CheckGroups | replicate/remoteupdate.py:162-177 | Refuses, naming the first such row, rows without a grouping or of an edit already done; then any edit with a block twice or, unfiltered, with blocks that are not 0..n-1 |
| ExtractUpdate.RemoteExtractUpdate.Patching | replicate/remoteupdate.py:186-197 | The patch and its checkpoint are committed together, or the extract is unchanged |
| ExtractUpdate.RemoteExtractUpdate.ApplyRows | replicate/remoteupdate.py:199-233 | Refuses rows of the old form before touching the extract; otherwise one transaction commits all of the rows with the checkpoint |
| ExtractUpdate.RemoteExtractUpdate.RunWindow | replicate/remoteupdate.py:249-262 | A window is refused, waited with, or applied but for the rows of its final edit when more windows follow, as the plan of the run says; a failure changes nothing |
| ExtractUpdate.RemoteExtractUpdate.Run | replicate/remoteupdate.py:235-268 | A run commits a first part of the transactions of its plan, all of them unless the process is stopped, sets the checkpoint to that of the last one committed, and returns how many rows it applied |
| WholeEdits.GroupsAccepted | replicate/remoteupdate.py:162-177 | On a log of whole edits, `check_groups` never refuses the rows after a checkpoint between edits, whatever the filter and wherever the window ends |
| WholeEdits.RunCatchesUp | replicate/remoteupdate.py:235-268 | For every window size, a run on a log of whole edits is never refused, and its transactions apply exactly the concerning rows after the checkpoint, each transaction the rows up to its own checkpoint, which is its last row's or the latest IDs, and lies between edits |
| WholeEdits.NoEditSplit | replicate/remoteupdate.py:250-262 | Rows of two different transactions are of different edits, the earlier transaction's edit first |
| WholeEdits.StoppedAfter | replicate/remoteupdate.py:186-268 | Stopped after any number of its transactions, a run has applied exactly the concerning rows up to the stored checkpoint, and what it would still have done is what catches up from there |
| WholeEdits.EachRecordOnce | replicate/remoteupdate.py:186-268 | Stopped and started again any number of times, with any windows and as the log grows, updates have applied each concerning row since the first checkpoint once and in order, up to the checkpoint reached |
| WholeEdits.SameEndAsUninterrupted | replicate/remoteupdate.py:186-268 | Once the last of such attempts finishes, checkpoint and applied rows are those of one uninterrupted run with any window |
| WholeEdits.LaterEditsIgnored | replicate/remoteupdate.py:238-247 | Edits committed after the latest IDs were read make no difference to a run's plan |
| ExtractRefusals.AcceptedExactlyWhen | replicate/remoteupdate.py:162-177 | Rows are accepted if and only if each names a block of an edit still to come, no block is there twice and, unfiltered, none is missing below another |
| ExtractRefusals.HopelessIsRefused | replicate/remoteupdate.py:235-268 | No update of any window completes while it has to apply a record of the old form, of an edit done before, or, unfiltered, of an edit of which the log lacks an earlier block |
| ExtractRefusals.ResetExactlyWhen | replicate/remoteupdate.py:238-240 | A source is refused as reset, with nothing applied, if and only if one of its latest IDs is before the checkpoint |
| ExtractRefusals.ParentsExactlyWhen | replicate/remoteupdate.py:199-213 | Rows are refused for lacking related parents if and only if one does, and the first of them is named |
| ChangesetUpload.CheckObjects | changeset/views.py:173-224 | Accepts objects exactly if every one has an ID and version fit for the action, a position in range and tags of at most 255 characters |
| ChangesetUpload.SetVersions | changeset/views.py:390-411 | Created objects get version 1, others the version they name plus one; nothing else changes |
| ChangesetUpload.CheckWays | changeset/views.py:191-199 | Accepts ways exactly if each has at least two nodes, unless deleted, and not more than the maximum |
| ChangesetUpload.CheckUnique | changeset/views.py:432-448 | Accepts objects exactly if no ID comes twice |
| ChangesetUpload.ReferencedIds | changeset/views.py:358-376 | The IDs of a kind that a block has objects of or that its ways and relations name |
| ChangesetUpload.CheckFound | changeset/views.py:471-497 | Accepts a block exactly if every positive ID it modifies or refers to is live |
| ChangesetUpload.CheckVersions | changeset/views.py:499-511 | Accepts objects exactly if each with a version above 1 follows on from the live version |
| ChangesetUpload.CheckBlock | changeset/views.py:382-511 | The answer is that of the check that fails first; the block's versions are then those to store |
| ChangesetUpload.UsedInRelations | changeset/views.py:521-533 | Finds exactly the objects that a live relation not being deleted uses, each with one such relation |
| ChangesetUpload.UsedInWays | changeset/views.py:577-587 | Finds exactly the nodes that a live way not being deleted uses, each with one such way |
| ChangesetUpload.KeepUsedRelations | changeset/views.py:515-547 | The repeated filter ends; with if-unused it leaves the relations that no kept relation uses, without it refuses if there are any others |
| ChangesetUpload.DeleteNodes | changeset/views.py:577-629 | Nodes used by kept ways, then by kept relations, are kept with if-unused, or refused |
| ChangesetUpload.DeleteBranch | changeset/views.py:513-629 | The block is left with what may be deleted, in its order, or refused naming the first kind still used |
| ChangesetUpload.StoreBlock | changeset/views.py:654-663 | Stores the block, as the contract of StoreObjects has it, or fails without changing the transaction |
| ChangesetUpload.UploadBlock | changeset/views.py:378-663 | A block changes the transaction's map as its outcome says, or is refused |
| ChangesetUpload.Database.Upload | changeset/views.py:1102-1123 | All blocks of an upload are committed, or none is and the database is unchanged |
| Deletion.UnusedIsSafe | changeset/views.py:513-629 | What if-unused deletes is part of the request, and no surviving way or relation uses any of it |
| Deletion.UnusedIsGreatest | changeset/views.py:513-629 | Every other such part of the request is contained in it |
| Deletion.UnusedIsAllExactlyWhenSafe | changeset/views.py:513-629 | Nothing has to be kept if and only if the whole request can be deleted |
| ChangesetIntegrity.IfUnusedDeletesGreatest | changeset/views.py:513-629 | With if-unused a delete block is never refused for use, and deletes the greatest safe part of its objects |
| ChangesetIntegrity.RefusedExactlyWhenUnsafe | changeset/views.py:513-629 | Without if-unused a delete block is refused as still used if and only if a surviving object uses one of its objects; otherwise all of it is deleted |
| ChangesetIntegrity.BlockKeepsStore | changeset/views.py:471-663 | A block that succeeds leaves every node of a live way and member of a live relation live, each object's versions consecutive, and all earlier versions recorded |
| ChangesetIntegrity.UploadKeepsStore | changeset/views.py:1102-1123 | So does an upload of any blocks, several of them perhaps touching the same object |
| ChangesetIntegrity.UploadsKeepStore | changeset/views.py:1065-1127 | So does any sequence of uploads, refused ones included |
| ChangesetIntegrity.NamesLiveVersion | changeset/views.py:397-511 | A modify or delete that passes the checks names the live version of each object |
| ChangesetIntegrity.StoredVersionIsLast | changeset/views.py:405-663 | What a modify or delete stores is the last version of its object |
| ChangesetIntegrity.SameVersionOnce | changeset/views.py:397-511 | Of two modify or delete requests that name the same version of one object, at most one is carried out: the other fails at any later time, whatever settings and changeset it comes with |
| ChangesetEffects.CarriedOutExactlyWhen | changeset/views.py:378-663 | A block that creates or modifies is carried out if and only if every object is in order, names only live objects and itself in its live version, no ID comes twice, and every placeholder has been or is being created |
| ChangesetEffects.CreatedStaysBefore | changeset/views.py:654-663 | Along an upload, the IDs created so far stay below those still to come, as the theorem before assumes of a block |
| ChangesetEffects.AcceptedExactlyWhen | changeset/views.py:382-511 | Without the placeholders, these are exactly the blocks that pass all checks |
| ChangesetEffects.RefusedForWhatItSays | changeset/views.py:382-511 | A block that fails a check has an object that the answer is true of |
| ChangesetEffects.StillUsedIs | changeset/views.py:513-629 | A delete block that is refused for a kind holds an object of that kind which a live object outside the block uses |
| ChangesetEffects.BlockStores | changeset/views.py:630-663 | After a block that creates or modifies, each object is live with the uploaded tags, position and changeset, its refs and members in order with placeholders replaced, in version 1 or one more than named; a created one under an ID that no live object had |
| ChangesetEffects.BlockLeavesOthers | changeset/views.py:378-663 | A block leaves every object that it does not name as it was; what a delete block names is gone, all of it without if-unused |
| ChangesetEffects.UploadStores | changeset/views.py:1102-1123 | An upload leaves each object as the last block that creates or modifies it had it |
| ChangesetEffects.UploadDeletes | changeset/views.py:1102-1123 | And without those that a block deletes, unless a later one names them |
| ChangesetEffects.UploadLeavesOthers | changeset/views.py:1102-1123 | An object that no block names is as it was |
| ChangesetEffects.UploadedExactlyWhen | changeset/views.py:1102-1123 | An upload is carried out if and only if every block is, in the state that those before it left, and they do not hold too many objects in all |
| MapSource.Source.Query | overpass/evaluator.py:159-173 | From a database that returns any matches up to a limit, and takes an empty ID list as no restriction: all objects that match, or an error if there are more than the maximum; never a part of them, and nothing for an empty set of IDs |
| MapSource.Source.QueryIds | overpass/evaluator.py:175-185 | The same, for the IDs of what matches |
| MapSource.Source.ByIds | overpass/evaluator.py:187-193 | The live objects among some IDs, or an error for more than ten times the maximum |
| OverpassPlaces.CommonBoxIsAll | overpass/evaluator.py:205-215 | A node is in the common area of some boxes if and only if it is in each; there is no common area exactly if no node could be |
| OverpassPlaces.RegionIsPlaces | overpass/evaluator.py:300-312 | A node is in the region of a query if and only if it meets every box and around filter of it and the setting |
| OverpassPlaces.ReachedWays | overpass/evaluator.py:460-471 | Working up from a region's nodes finds exactly the ways with a node in it |
| OverpassPlaces.ReachedRelations | overpass/evaluator.py:460-471 | And exactly the relations with a part in it: a node, or a way through one |
| OverpassPlaces.WayHasPart | overpass/evaluator.py:473-497 | Looking up only the nodes of a way decides whether it has one in the region |
| OverpassPlaces.RelationHasPart | overpass/evaluator.py:473-497 | Looking up only the nodes of a relation and its member ways decides whether it has a part in the region |
| RegionSearch.Searcher.AroundRegion | overpass/evaluator.py:439-454 | From the cache or the map alike, the true nodes of a region and the true ways through them; nothing, or an error, only if there are too many; the cache never holds anything else |
| RegionSearch.Searcher.ReachedFromRegion | overpass/evaluator.py:460-471 | Exactly the ways or relations with a part in the region that meet the conditions, or an error that a small map never gives |
| RegionSearch.Searcher.HavingPartInRegion | overpass/evaluator.py:473-497 | Of some ways or relations, exactly those with a part in the region, or such an error |
| RegionSearch.Searcher.InRegion | overpass/evaluator.py:419-437 | The same result whichever strategy is taken, by the size of the region, what it holds and what the cache held |
| QueryParts.LinkedIds | overpass/evaluator.py:368-397 | Exactly what a link leads to from a set, or an error if that is too much |
| QueryParts.CandidateIds | overpass/evaluator.py:335-342 | The IDs that all filters by ID, set and link allow, None without such filters, although the loop stops once nothing is left |
| Shapes.ResolveGeometry | overpass/evaluator.py:572-594 | The nodes whose positions, and the ways whose nodes, are needed to draw some of a set's objects |
| Shapes.ElementPointsAre | overpass/output.py:47-60 | The known positions of an object are those of all its live nodes, and of its member ways' |
| Shapes.AroundPositions | overpass/evaluator.py:399-413 | Exactly the centres of an around filter, or an error if they are too many |
| Querying.WhereToLook | overpass/evaluator.py:300-312 | Two around filters are refused; where the places of a query exclude each other, it means nothing; otherwise the region is that of its places |
| Querying.FindKind | overpass/evaluator.py:334-351 | Exactly the objects of one kind that the query means, whichever of the three searches finds them |
| Querying.Query | overpass/evaluator.py:293-356 | A query gives exactly the objects of its types that meet every filter, whatever the cache held, or is refused; and it is refused only for two user or around filters, for nothing to start from, for too large an area, or for size on a map that is not small |
| OverpassAnswers.AnswerIs | overpass/evaluator.py:293-356 | An object is in a query's answer if and only if it is live, of a kind asked for, where the query looks, and satisfies each filter: tag and time conditions as they are, users also by the accounts of their names, IDs, sets and links |
| OverpassAnswers.PlacesAre | overpass/evaluator.py:206-215 | It is there if one of its nodes is in every box and near a centre of each around filter; or, by stored boxes alone, if its box meets what they have in common |
| OverpassAnswers.LinkedIs | overpass/evaluator.py:368-397 | What each of the five links leads to, with a role restricting the members |
| OverpassAnswers.SupportedIs | overpass/evaluator.py:295-308 | Two user or two around filters, and nothing else, make a query unsupported |
| OverpassAnswers.SelectiveIs | overpass/evaluator.py:314-332 | A query may do without a place if and only if it has IDs, a set, a link, or a filter on a key or a key with one value |
| OverpassAnswers.RefusalIs | overpass/evaluator.py:293-356 | What each refusal of a query says of its filters, of the map, or of both |
| OverpassAnswers.RoomyIs | overpass/evaluator.py:159-185 | A map is small if all IDs in it and referred to from it, relations twice, are within the limits |
| OverpassRecursion.DownClosureIsClosed | overpass/evaluator.py:504-513 | What is reached downwards holds the start and the live relation members of all it holds, cyclic or dangling ones included |
| OverpassRecursion.DownClosureWithin | overpass/evaluator.py:504-513 | And it is the least such set |
| OverpassRecursion.UpClosureIsClosed | overpass/evaluator.py:530-541 | What is reached upwards holds the start and every live relation with a member in it |
| OverpassRecursion.UpClosureWithin | overpass/evaluator.py:530-541 | And it is the least such set |
| OverpassRecursion.DownAndUpAreDual | overpass/evaluator.py:501-542 | For live relations, r is in `>>` of s, in every set closed downwards that holds s, if and only if s is in every set closed upwards that holds r, in `<<` of r |
| OverpassRecursion.WithDownRelIsComplete | overpass/views.py:168-172 | A query result united with its `>>` holds every existing node of its ways and member of its relations |
| OverpassRecursion.WithDownRelIsLeast | overpass/views.py:168-172 | And is the least such set that holds the result |
| Recursing.FollowDown | overpass/evaluator.py:504-514 | The loop ends, and finds exactly the relations reachable downwards, or gives an error that a small map never does |
| Recursing.FollowUp | overpass/evaluator.py:530-541 | The loop ends, and finds exactly the relations reachable upwards, or gives such an error |
| Recursing.Recurse | overpass/evaluator.py:501-542 | What each of the four recursions means for a set, or such an error |
| OverpassScript.OnlyWritesItsSets | overpass/evaluator.py:258-289 | A statement changes no named set but those that it and its children write |
| ScriptAnswers.QueryIs | overpass/evaluator.py:267-268 | A query's answer is its result and what is stored under its target, and no other set changes |
| ScriptAnswers.ItemIs | overpass/evaluator.py:282-283 | An item gives the set that it names, or nothing, and names it again if it has a target |
| ScriptAnswers.DifferenceIs | overpass/evaluator.py:276-281 | An object is in a difference if and only if it is in the first side's result and not in the second's, which runs with the sets that the first left |
| ScriptAnswers.UnionIs | overpass/evaluator.py:269-275 | An object is in a union if and only if it is in some child's result; the children run in turn |
| ScriptAnswers.RecurseIs | overpass/evaluator.py:501-547 | Which nodes, ways and relations each of the four recursions gives, by refs and members |
| ScriptAnswers.PrintIs | overpass/evaluator.py:555-570 | Printing gives the counts of each kind, or all objects or the first so many, none of which comes after one left out |
| ScriptAnswers.ShapeIs | overpass/evaluator.py:572-594 | Which nodes and ways drawing the printed objects needs |
| OverpassScript.InOrderIs | overpass/evaluator.py:560-562 | What is printed of a set is all of its objects, each once: nodes, then ways, then relations, and each kind by rising ID |
| Evaluator.Ordered | overpass/evaluator.py:560-562 | Sorting the three kinds gives that order |
| Evaluator.Evaluator.Store | overpass/evaluator.py:258-263 | A result within the limit is named, and nothing else changes; a larger one is an error |
| Evaluator.Evaluator.PrintSet | overpass/evaluator.py:555-570 | Adds to the output the counts of a set, or its first objects in order with what drawing them needs; printing more than the limit in all is an error |
| Evaluator.Evaluator.ExecuteItem | overpass/evaluator.py:282-283 | An item's result is the very object that it names, which is then under its second name as well; the named sets are still those that the statement means |
| Evaluator.Evaluator.ExecuteAll | overpass/evaluator.py:269-275 | Statements run one after another leave the sets and output that they mean, and their results are joined in a set of their own |
| Evaluator.Evaluator.Execute | overpass/evaluator.py:265-289 | Any statement, with unions, differences, items and recursion in it, gives exactly its denotational meaning: result, named sets and output; everything stored, and all that is printed, is within the limit |
| Evaluator.Evaluator.RunScript | overpass/evaluator.py:249-253 | A script's output is exactly what it means, or it is refused for a reason found in one of its statements |
| Evaluator.RefusedForPrinting | overpass/evaluator.py:265-289 | On a small map, a statement of queries that are supported and selective is refused only if what it prints goes over the limit |
| Evaluator.CountsTowardsLimits | overpass/evaluator.py:213-215 | Every object of a set, and every object listed but none only counted, counts towards the limits |
| QlLexemes.SkipIs | overpass/ql.py:281-296 | What is skipped is exactly a run of white characters, lines after `//` and closed comments, up to where no other begins |
| QlLexemes.StringBodyIs | overpass/ql.py:335-365 | A string is read if and only if it is written, up to its closing quote, as plain characters, escapes and codes, and then it is the characters that these stand for |
| QlLexemes.NumberAtIs | overpass/ql.py:376-380 | A number is read if and only if the text begins with a numeral that nothing after it could prolong, and it is the numeral's value: whole part and fraction, times a power of ten |
| QlGrammar.ObjectId | overpass/ql.py:724-728 | An ID has at most 18 digits |
| QlGrammar.CheckBox | overpass/ql.py:396-405 | A box that is accepted is in range, with south <= north and west <= east |
| QlGrammar.TagFilter | overpass/ql.py:580-610 | A tag filter that is read is well-formed, and reading it takes some of the text |
| QlGrammar.RoundFilter | overpass/ql.py:612-648 | So is a filter in round brackets: boxes in range, IDs within 18 digits, a radius not negative, users by ID or by name |
| QlGrammar.PrintOptions | overpass/ql.py:730-765 | An out statement that is read does not combine count with other options |
| QlGrammar.ParseStatement | overpass/ql.py:501-537 | A statement that is read is well-formed, with no `out` inside a union, and reading it takes some of the text |
| QlGrammar.UnionRest | overpass/ql.py:539-562 | A union that is read is not empty, a difference has exactly two sides, and nothing in either prints |
| QlScripts.Settings | overpass/ql.py:427-465 | Settings that are read have a bbox in range, and not from the URL as well |
| QlScripts.SettingsGivenOnce | overpass/ql.py:427-465 | A text that gives a setting twice, or an unknown one, is refused; in one that is read, what is set is exactly what is given |
| QlScripts.Parse | overpass/ql.py:409-425 | Any text that is read gives a well-formed script with at least one statement |
| QlTokens.QuotedRead | overpass/ql.py:335-365 | Any characters, quoted with escapes, are read back as they were |
| QlTokens.NumberRead | overpass/ql.py:376-380 | Any decimal, written as a whole number and a power of ten, is read back as it was |
| QlTokens.ObjectIdRead | overpass/ql.py:724-728 | Any ID below ten to the 18th is read back as it was |
| QlReadBack.FilterRead | overpass/ql.py:580-728 | Every well-formed filter is read back from its text, and nothing after it |
| QlReadBack.OutRead | overpass/ql.py:730-765 | Every well-formed out statement is read back from its text |
| QlInverse.StatementRead | overpass/ql.py:501-562 | Every well-formed statement, nested unions and differences included, is read back from its text, and nothing after it |
| QlInverse.SettingsRead | overpass/ql.py:427-499 | Every well-formed combination of settings is read back from its text |
| QlInverse.TextIsReadBack | overpass/ql.py:409-425 | Every well-formed script has a text from which it is read back exactly |
| QlInverse.ParsedIsPrintable | overpass/ql.py:409-425 | What any text is read as can be printed, and reading that gives the same script |
| QlShortRead.ShortFilterRead | overpass/ql.py:580-728 | Every well-formed filter is read from its short text: bare keys, values and roles, `==`, one ID alone, and no name for the default set |
| QlShortRead.ShortOutRead | overpass/ql.py:730-765 | So is every out statement that leaves out its set and the options it has anyway |
| QlShortRead.ShortStatementRead | overpass/ql.py:501-562 | So is every statement, nested ones included: without a target the result goes to the default set, and without a source it comes from there |
| QlShortScripts.ShortSettingsRead | overpass/ql.py:427-499 | So are settings that only say what is not so anyway, CSV columns and options included |
| QlShortScripts.ShortTextIsRead | overpass/ql.py:409-425 | Every well-formed script is read from its short text, with no settings at all if it has none |
| QlShortScripts.DefaultSetIsPrinted | overpass/ql.py:389-394 | For example, a query of one ID and `out` after it, neither naming a set: the one stores where the other reads |
| QlRefusals.BracesAreRefused | overpass/ql.py:410-413 | Two opening braces anywhere, even in quotes, are refused |
| QlRefusals.XmlIsRefused | overpass/ql.py:414-416 | A query that begins with any element of Overpass XML is refused as not supported |
| QlRefusals.NothingIsRefused | overpass/ql.py:417-425 | A text of white space and comments alone is refused |
| QlRefusals.OtherStatementsAreRefused | overpass/ql.py:516-537 | Each statement of the language that the server lacks is refused as not supported |
| QlRefusals.OtherFiltersAreRefused | overpass/ql.py:612-632 | And each filter that it lacks |
| QlParser.Parser.SkipSpace | overpass/ql.py:281-296 | Moves the cursor past white space and comments, or fails in a comment that is not closed, as the grammar says; every round of the loop moves it on |
| QlParser.Parser.ReadBody | overpass/ql.py:342-365 | The characters up to the closing quote, escapes replaced |
| QlParser.Parser.ReadTagOperator | overpass/ql.py:591-602 | The operator of a tag filter; the longer ones are looked for first |
| QlParser.Parser.ReadNumbersFilter | overpass/ql.py:636-648 | A box, or one ID for which the cursor goes back, as the grammar says |
| QlParser.Parser.ReadFilters | overpass/ql.py:564-575 | The filters of a query, until something else follows |
| QlParser.Parser.ReadPrint | overpass/ql.py:730-765 | An out statement after its word, as the grammar says |
| QlParser.Parser.ReadStatement | overpass/ql.py:501-537 | A statement, as the grammar says; reading ends although statements nest |
| QlParser.Parser.ReadUnion | overpass/ql.py:539-562 | A union or difference after its opening bracket, as the grammar says |
| QlParser.Parser.ReadUnionEnd | overpass/ql.py:553-562 | What a union comes to once it is closed, or a failure if it is empty or a difference without two sides |
| QlParser.Parser.ReadCsvFormat | overpass/ql.py:467-484 | The columns and options of CSV output, as the grammar says |
| QlParser.Parser.ReadSettings | overpass/ql.py:427-465 | The settings, each at most once, as the grammar says |
| QlParser.Parser.ReadScript | overpass/ql.py:409-425 | The whole text is read as the grammar says, so that both of its theorems hold of the parser |
| RecordMessages.RecordsForward | notify/server.py:142-155 | The first records of a range and what they cover, with the records after that, are the range; none are found only if there are none |
| RecordMessages.RecordsMessages | notify/server.py:663-681 | The messages hold exactly the concerning records of the range, in order, once each; their ranges follow on, and each holds as many as it may |
| NotifyChecks.StepKeepsSafe | notify/server.py:240-681 | Every step of every task, and everything that can happen between them, keeps the whole invariant |
| NotifyChecks.RunsAreSafe | notify/server.py:240-681 | So the invariant holds in every state that a run can reach, over all interleavings |
| NotifyChecks.ExactlyOnce | notify/server.py:412-441 | An open records subscription has been sent exactly the concerning records with IDs from just after the one answered when it began up to the notifier's latest, in order, once each |
| NotifyChecks.NothingPastAGap | notify/server.py:652-656 | A subscription whose connection is closing, as after a failed read, has been sent a first part of them without a gap |
| NotifyChecks.RangesGoOn | notify/server.py:663-681 | The ranges of all messages of a subscription come one after another; each message holds exactly the concerning records of its range, and none lies before, between or after the ranges |
| NotifyChecks.EditsAreTold | notify/server.py:645-659 | An open edits subscription has been told of every edit since it began that may concern its area |
| NotifyChecks.EditsAreToldOnce | notify/server.py:628-659 | What it is told is of no edit twice, in order, and not without a reason: a record of the range concerns the area, or the area is everywhere, or could not be asked about |
| NotifyChecks.NoCallIsLost | notify/server.py:552-588 | When the notifier is idle, each call of edits_changed or refresh has been followed by a read of the map; unless such a check failed, latest is at least every edit committed before the call |
| NotifyChecks.OneCheckAtATime | notify/server.py:552-588 | A check is started only when none is under way, and its flag says when one is |
| NotifyChecks.LimitsHold | notify/server.py:527-605 | Different followed areas never exceed the maximum, although a wait lies between the two checks of them; per_address holds the true counts and no zero; and an open connection has a deadline exactly if it holds no subscription |
| NotifyChecks.SubscriptionsGoOn | notify/server.py:412-451 | Only its connection's loss or its own request ends a records subscription. Each step leaves its start, and adds nothing to what it was sent, or one check's messages: they begin just after the ID that was latest, each just after the one before, up to the ID that is now |
| NotifyClients.RefreshedKeepsSafe | notify/server.py:435-441 | A subscription that begins after the wait, even while a further check is under way, keeps the invariant |
| NotifyChecks.DeliverKeepsUnderway | notify/server.py:645-659 | Delivering what a check has found out keeps the invariant, subscriptions made while it was asking included |
| NotifyRequests.AdmittedExactlyWhen | notify/server.py:262-272 | A connection is admitted if and only if there are fewer than the maxima, in all and from its address; it has a deadline and no subscription |
| NotifyRequests.RequestIs | notify/server.py:412-434 | A request to subscribe is refused, and nothing changes, if and only if there is such a subscription or no room for the area; otherwise the client waits, its subscriptions as they were |
| NotifyRequests.CheckedIs | notify/server.py:421-434 | A shape that is refused ends the request and leaves the subscriptions; a tidied one is what the client waits with |
| NotifyRequests.ResumedIs | notify/server.py:435-441 | After the wait a subscription begins if and only if the connection is open and there is room still; otherwise the subscriptions are as they were |
| NotifyRequests.SubscribesToWhatItAskedFor | notify/server.py:412-441 | Over any run: what begins is to the area and format of the request, at the latest ID, with nothing sent yet |
| NotifyRequests.SubscribesToTheTidiedShape | notify/server.py:412-441 | Over any run: a shape is followed as it was tidied, in the format asked for |
| NotifyRequests.BeginsCaughtUp | notify/server.py:412-441 | A subscription begins with an ID not below any edit there was at the request, unless a read of the map has failed since |
| NotifyRequests.HelloIs | notify/server.py:399-410 | Hello greets a client and gives it a deadline, once |
| NotifyRequests.UnsubscribedIs | notify/server.py:443-451 | Unsubscribing ends the one subscription, keeps the other, and starts a deadline if that was the last |
| NotifyRequests.LostIs | notify/server.py:274-280 | A lost connection is gone, and no other changes |
| NotifyRequests.ClosedOnlyFor | notify/server.py:645-659 | A connection becomes closing only of itself or when a check ends that could not read its own records |
| NotifyRequests.NoEditIsMissed | notify/server.py:552-588 | After it is told of a change, and unless a read fails, the notifier is not idle before its latest ID has reached every edit there was |
| NotifyRequests.NothingNewIsTold | notify/server.py:607-615 | If the latest ID is not new, or could not be read, nobody is told anything; one that went back is followed |
| NotifyServer.Connection.SayHello | notify/server.py:399-410 | A first hello gives the connection some time to subscribe; a further one changes nothing |
| NotifyServer.Connection.RemoveSubscription | notify/server.py:443-451 | Ends the one subscription, and starts a deadline if it was the last |
| NotifyServer.Connection.AddSubscription | notify/server.py:439-441 | The subscription begins at the ID answered, with nothing sent, and the deadline stops |
| NotifyServer.Connection.Receive | notify/server.py:649-659 | Appends the range or messages to what each subscription was sent, or nothing to a closing connection, or closes one whose records failed |
| NotifyServer.EditNotifier.ConnectionMade | notify/server.py:262-272 | A connection is admitted with a deadline if there is room, and otherwise nothing changes |
| NotifyServer.EditNotifier.Admit | notify/server.py:527-536 | Admits exactly within both limits, and counts the address |
| NotifyServer.EditNotifier.ConnectionLost | notify/server.py:274-280 | The connection, its subscriptions and waiting request are gone, and it is no longer counted |
| NotifyServer.EditNotifier.Release | notify/server.py:538-545 | Forgets a connection and its count, removing an address without others; one never admitted changes nothing |
| NotifyServer.EditNotifier.CheckAreaAllowed | notify/server.py:598-605 | An area is allowed if and only if it is everywhere, already followed, or there is room for it |
| NotifyServer.EditNotifier.IsSafe | notify/server.py:469-681 | Whatever was called on a notifier, in any order, its state is safe, as all of it is a run of the protocol |
| NotifyServer.EditNotifier.SentExactlyOnce | notify/server.py:412-441 | So each of its open records subscriptions has been sent exactly the concerning records since it began, in order, once each |
| NotifyServer.EditNotifier.RequestHello | notify/server.py:399-410 | A hello makes that step of the protocol |
| NotifyServer.EditNotifier.RequestUnsubscribe | notify/server.py:443-451 | So does a request to unsubscribe |
| NotifyServer.EditNotifier.CloseConnection | notify/server.py:290-294 | Closing a connection leaves all but that as it is |
| NotifyServer.EditNotifier.BeginSubscribe | notify/server.py:412-434 | The first stretch of subscribing makes that step of the protocol |
| NotifyServer.EditNotifier.AreaIsChecked | notify/server.py:425-434 | So does the stretch after a shape was checked |
| NotifyServer.EditNotifier.FinishSubscribe | notify/server.py:435-441 | So does the stretch after the notifier has been idle, with the second check of the area |
| NotifyServer.EditNotifier.AskForCheck | notify/server.py:552-574 | A check is started, or the one under way is asked to go again |
| NotifyServer.EditNotifier.NoticeEdits | notify/server.py:552-559 | Being told of a change makes that step of the protocol |
| NotifyServer.EditNotifier.BeginCheck | notify/server.py:578-579 | A call made after the read has begun asks for another |
| NotifyServer.EditNotifier.MapReadsLatest | notify/server.py:607-608 | The latest ID that is read is that of the log's last record, or reading fails |
| NotifyServer.EditNotifier.MapAnswersAsk | notify/server.py:633-644 | What the source answers is true of the map, or an error |
| NotifyServer.EditNotifier.SettleCheck | notify/server.py:584-588 | Either another check begins or the notifier is idle |
| NotifyServer.EditNotifier.CheckLatest | notify/server.py:607-630 | What a check does with the map's latest ID is that step of the protocol |
| NotifyServer.EditNotifier.CheckAnswer | notify/server.py:633-645 | And so with an answer: a place that could not be asked about counts as concerned, failed records are remembered |
| NotifyServer.EditNotifier.GoOn | notify/server.py:628-645 | Asking goes on until every area and format subscribed to, also meanwhile, has an answer, and only then delivers |
| NotifyServer.EditNotifier.DeliverAll | notify/server.py:645-659 | Every connection receives what the check found out, and latest moves on, in one step |
| TokenBucket.Requests.Allowed | notify/server.py:363-372 | Refills the bucket for the time passed, up to the burst, and takes a token if there is a whole one |
| TokenBucket.AllowedAreBounded | notify/server.py:363-372 | Over any run, between any two requests no more are allowed than the burst and the rate times the time between them |
| TokenBucket.SpacedAreAllowed | notify/server.py:363-372 | A client whose requests are at least one token's time apart is never refused |
| DiffPaths.DiffOf | replicate/views.py:339-359 | A path's diff is read for the one unit that ends at its time, unless that is in the future; it begins where the path before ends, and its times are exactly those with this path |
| DiffPaths.PathIsOfTime | replicate/views.py:339-428 | For cat2 in 0..999 and cat3 in 1..1000, a time is in a path's interval if and only if that is the time's path |
| DiffPaths.EveryTimeHasAPath | replicate/views.py:403-428 | Every time has such a path, one unit long, on the first page or later from the epoch on |
| DiffPaths.DiffsFollowOn | replicate/views.py:339-359 | Each interval begins where the one before it ends, over page boundaries as well |
| DiffPaths.SameDiff | replicate/views.py:339-428 | 1000 names the same interval as 000 of the next page |
| DiffPaths.Catalog | replicate/views.py:225-247 | Lists exactly the first pages that have begun, and the first one even before the epoch |
| DiffPaths.Catalog2 | replicate/views.py:249-280 | Not found exactly if the page is in the future; otherwise lists exactly those of its pages 000 to 999 that are not |
| DiffPaths.Catalog3 | replicate/views.py:282-314 | Not found exactly if the page is in the future; otherwise lists exactly those diffs 000 to 999 that can be read |
| DiffPaths.CataloguesAreComplete | replicate/views.py:225-314 | Every diff since the epoch that can be read is found through the three catalogues |

## Left out

- Querying.Query: says that size is a reason for refusal only on a map that is not small, not at exactly which size each intermediate search gives up.
- Evaluator.Evaluator.Execute: likewise; and running out of time is not modelled.
- RegionSearch.Searcher.InRegion: which strategy is quicker is not modelled, only that all give the same.
- ExtractUpdate.RemoteExtractUpdate.Run: any window size, of which the program's is one.
- MapSource.Source.Query: tag, user and time conditions are uninterpreted, regular expressions included, each looked at by itself; folding several time conditions into one is taken to mean all of them.
- OverpassMeaning: whether a stored box overlaps an area, how near a node is to a position, the area of a region, and the accounts of user names are uninterpreted.
- NotifyChecks.ExactlyOnce: the log is taken to be append-only; the step that follows a map going back is there, but no run reaches it.
- NotifyServer: the latest atomic edit ID carried along with the edit activity ID; heartbeats, keepalive, and clients that fall behind, whose being dropped is a connection closing; a deadline that runs out likewise. Starting and stopping the server. Reading requests and encoding messages: the rounding of boxes and counting of points come before the steps.
- TokenBucket.SpacedAreAllowed: over exact numbers, not floating point.
- ChangesetUpload.StoreBlock: pgmap's StoreObjects is a contract: placeholders stand for live or new objects or it fails, and new versions are stored all together. Lookups are exact.
- ChangesetUpload.UploadBlock: users, timestamps, edit activity, changeset bounding boxes and the diff result.
- ChangesetEffects.CarriedOutExactlyWhen: of nodes without refs or members, ways without members and relations without refs, as only such objects come up; delete blocks have their own theorems.
- ChangesetUpload.Database.Upload: whether the changeset is open and whose it is.
- ExtractUpdate.RemoteExtractUpdate.ApplyRows: what a patch does to the extract's objects, and nodes that it lacks.
- ActivityPages.RemoteActivities: requests over the web, and answers that cannot be read.
- QlParser.Parser.ReadScript: the words and line numbers of errors, only whether a text is wrong or asks for what is not supported; decimal digits other than 0 to 9.
- QlLexemes.StringBodyIs: an escape of a lone surrogate is read as the replacement character.
- QlLexemes.NumberAtIs: numbers are exact decimals, without rounding, infinity or a limit on their digits.
- QlParser.Parser.ReadTimestamp: which texts are dates is uninterpreted.
- QlScripts.Parse: which characters outside ASCII are of words, which matters only to recognise XML, is uninterpreted.
- Shapes.ResolveGeometry: which nodes and ways drawing needs, not the drawing. Writing XML, JSON and CSV.
- DiffPaths.DiffOf: what reading a diff returns; the text of state files and pages.
- XAPI requests, whose escapes do not survive being read; extracts chosen by area and boxes of edit activity; administration, templates, settings and accounts.
