# Verified model of a game server's item and creature core

Dafny 4.11 models of the parts of a C++ game server whose correctness spans many functions, with
proofs for all inputs and all runs.  `dafny verify dfyconfig.toml` checks everything.

| files | what they model |
|---|---|
| `ItemHeap`, `ItemMoves`, `MoveLaws`, `ItemAdding`, `MoveRuns`, `HeapTree`, `HeapSearch` | items and containers as linked objects with cached weights; queries, moves, adding, removing, searching |
| `RuneMoves`, `AddCases` | concrete states in which moving and adding go wrong |
| `Money`, `Purse` | coins: giving, collecting, paying with change |
| `OtbFormat`, `OtbReader` | node files: the format, and the parser over its three-block cache |
| `ItemTree`, `ItemRows` | breadth-first iteration; item trees as database rows and back |
| `ItemFormat`, `ItemWire`, `ItemStream` | item trees as bytes and back; the format byte by byte; the streams |
| `WalkCache`, `SpeedConditions`, `DamageList`, `CombatDamage` | creatures: walkability cache, conditions, damage, experience |
| `DecayWheel`, `Trade`, `DatabaseTasks` | decay buckets, the trade protocol, the task queue as interleaved steps |
| `AreaMatrix` | spell areas and their rotations |
| `Sums`, `Basics` | sums over maps; options, minimum and maximum |

Where the code keeps state, the model is a class with that state and methods with loops, and each
method is proved against functions and predicates on values.  For items these are snapshots: `Shape`
maps each item to kind, count, parent and list, and `Good` says that lists and parents agree, that
containment is a forest (ranks grow upwards), that every cached weight is right and that every stack
holds 1 to 100.  Totals are stated for every measure of kinds, so they cover the number of each kind
and the worth of coins alike.

## Where the code does not do what one would expect

- **Southern diagonals spoil the walkability cache.**  `getDistanceY` is a magnitude, so a step to the
  south-east or south-west shifts rows the wrong way (`WalkCache.AccurateExactlyWhen`).
- **Runes count as stackable but never merge.**  A rune moved to a full container with a rune of its
  kind makes it overfull; one directed to a stack that lies beyond the capacity of an overfull container
  is destroyed.  `ItemMoves.MoveConserves` shows that these are the only two failures of a move.  Adding
  such a rune destroys it too, with no error and no remainder (`AddCases.RunesVanish`).
- **`addMoney` wraps from 4294970000 on**, where a 32-bit product overflows.  `Money.MintedExactly` says
  for every amount whether the coins are worth it: if the number of crystal coins fits, and the product
  does not wrap or wraps a multiple of 25 times and the amount is no multiple of 100.
- **Shutdown can leave the database worker asleep**, if it signals between the worker's check of the
  state and its wait.
- **Mirror and flip compute the new centre from the wrong dimension**, so they are right exactly for
  square or empty areas.
- **A charged item with no charges left comes back full**, because zero charges are not written.
- **With stacking off, `internalAddItem` overfills containers and leaves remainders.**  The room on all
  stacks of the kind is counted, but only the stack at the place is used.  A plain item that gets a place
  of its own in a full container makes it overfull (`AddCases.CoinsOverfillBag`); what does not go onto
  the stack when the container is full is left over (`AddCases.CoinsRemain`).  `ItemAdding.AddDone` states
  both exactly; with stacking on neither happens, but for runes (`ItemAdding.StackingFits`).
- **A started item is only filed at the next cleanup.**  If a tick comes first, its decay is a tick later
  (`DecayWheel.Wheel.StartAndRun`).

## Model

| member | source | states |
|---|---|---|
| `ItemHeap.Item.UpdateItemWeight` | src/container.cpp:131-137 | it ends on every forest and adds the difference to the cached weight of exactly this container and all it lies in; nothing else changes |
| `ItemHeap.RaiseFixes` | src/container.cpp:131-137 | if every cached weight is right but one that lacks a difference, pushing that difference up makes every cached weight right |
| `ItemHeap.CachedIsDeep` | src/container.cpp:139-142 | in a forest whose local weights are right, the weight of every item is the sum over all that lies in it at every depth, defined by recursion |
| `ItemHeap.AttachRanked` | src/container.cpp:274-299 | putting an item into a container that does not lie in it keeps containment a forest |
| `ItemHeap.AttachGood` | src/container.cpp:458-477 | linking and then pushing up the weight keeps forest, weights and stack bounds |
| `ItemHeap.DetachGood` | src/container.cpp:556-569 | unlinking, with the weight pushed up before, keeps them |
| `ItemHeap.RetypeGood` | src/container.cpp:490-511 | changing kind or count of an item anywhere, and pushing up the difference, keeps them |
| `ItemHeap.SwapGood` | src/container.cpp:513-535 | replacing an item keeps them |
| `ItemHeap.Item.AddThing` | src/container.cpp:458-477 | a free item becomes the first of the list; an index beyond the capacity drops it silently and changes nothing; forest and weights stay right |
| `ItemHeap.Item.InternalAddThing` | src/container.cpp:653-663 | the same without the index |
| `ItemHeap.Item.UpdateThing` | src/container.cpp:490-511 | exactly the kind and count of an item that lies here change, all ancestors' weights follow |
| `ItemHeap.Item.ReplaceThing` | src/container.cpp:513-535 | exactly the item at the index is exchanged and becomes free, all ancestors' weights follow |
| `ItemHeap.Item.RemoveThing` | src/container.cpp:537-570 | part of a stack, or the whole item with the order of the others kept, leaves the container; an item that is not there changes nothing |
| `ItemHeap.Item.GetThingIndex` | src/container.cpp:572-582 | the place of the item, or -1 exactly if it is not there |
| `ItemMoves.Game.WeightIsDeep` | src/container.cpp:131-142 | in every state the operations reach, the cached weight is the recursive sum |
| `ItemMoves.Game.QueryAdd` | src/container.cpp:251-307 | the owner is asked exactly if the container is unlocked, the item can be picked up, is not above it and, for no given place, a slot is free; else the first check that fails |
| `ItemMoves.Game.LiesIn` | src/container.cpp:275-283 | the walk up the parents ends and finds an item exactly if it is above |
| `ItemMoves.Game.QueryMaxCount` | src/container.cpp:309-360 | free slots times a hundred and the room on stacks of the kind, as far as the carrier takes each filling; refusal exactly if that is less than asked |
| `ItemMoves.Game.QueryRemove` | src/container.cpp:362-382 | accepted exactly if the item is there, the amount is one of the stack and it can be moved or that is ignored; which refusal, exactly |
| `ItemMoves.Game.QueryDestination` | src/container.cpp:384-451 | from the lists alone: itself if locked; up for 254; the first stack with room; the container or the item at the index; else itself in front |
| `ItemMoves.FirstFit` | src/container.cpp:424-432 | the first stack of the kind with room and no earlier one |
| `ItemMoves.DestinationOk` | src/container.cpp:384-451 | a place names an item only if it lies there, and lies beyond the capacity only if it is that of a stack to fill; without one no stack has room |
| `ItemMoves.ResolveOk` | src/game.cpp:1055-1067 | the same of the place at which a chain of at most sixteen redirections ends |
| `ItemMoves.ResolveLeads` | src/game.cpp:1055-1067 | the chain of redirections is one step long and ends where the lists say: one container up, a stack with room, the container at the index or a stack with room in it, the item at the index, or in front; flags are kept exactly if it leads nowhere else |
| `ItemMoves.Game.FindPlace` | src/game.cpp:1055-1067 | the loop computes that place |
| `ItemMoves.GrantedFits` | src/game.cpp:1110-1139 | whatever part of a granted move does not merge finds a free slot and an index within the capacity, but for runes |
| `ItemMoves.Game.CheckMove` | src/game.cpp:1070-1161 | how much is moved, none if any check refuses |
| `ItemMoves.Game.MoveStack` | src/game.cpp:1164-1192 | the amount leaves the stack, fills the stack at the destination first and the rest is one new item in front |
| `ItemMoves.Game.InternalMoveItem` | src/game.cpp:1050-1219 | every outcome, full, partial or refused: what is moved arrives where the lists lead, on the stack there up to a hundred and the rest in front, and an item that is no stack lies in the container at the index, the one above for 254, or the one asked; forest, weights and stacks of 1 to 100 stay right; the total of every kind is the same exactly unless a rune is lost; no container gets past its capacity exactly unless a rune overfills it; the return code, the item a caller goes on with and the whole new state are given |
| `ItemMoves.MoveConserves` | src/game.cpp:1110-1192 | both equivalences, for every state and every move |
| `ItemMoves.MoveLands` | src/game.cpp:1150-1192 | whatever is granted arrives at that place, for stacks and for other items |
| `MoveLaws.AboveHasWay` | src/container.cpp:275-283 | what is above a container is reached by a way up the parents |
| `MoveLaws.WayIsAbove` | src/container.cpp:275-283 | and what such a way reaches is above |
| `MoveLaws.RoomIsWhatIsLeft` | src/container.cpp:319-345 | the room on all stacks and in all slots and what is used make up a hundred for each slot |
| `MoveLaws.RoomAt` | src/container.cpp:319-360 | the same at an index, where only the stack there is looked at |
| `MoveLaws.MovesExactly` | src/game.cpp:1069-1161 | a move carries something over exactly if the item is not dropped on itself, is welcome, may leave and does not go into what is traded, and then the whole amount |
| `MoveLaws.MoveAnswers` | src/game.cpp:1069-1219 | which check gives which answer; none exactly for a move of all that was asked |
| `ItemMoves.Game.InternalRemoveItem` | src/game.cpp:1305-1341 | refused, nothing changes; else exactly the amount leaves the container |
| `ItemMoves.Game.Create` | src/item.cpp:40-84 | a new item or container outside all containers keeps every invariant |
| `AddCases.CoinsOverfillBag` | src/game.cpp:1247-1252 | a full bag and ten coins that make it overfull, with stacking off |
| `AddCases.RunesVanish` | src/container.cpp:460-462 | an overfull bag to which ten runes are added and gone |
| `AddCases.CoinsRemain` | src/game.cpp:1266-1276 | a full bag and eighty coins of which thirty remain, with stacking off |
| `RuneMoves.RuneOverfillsBag` | src/container.cpp:331-337 | a full bag and a move of a rune that makes it overfull |
| `RuneMoves.FirstRuneMoves` | src/container.cpp:331-337 | a full bag with two kinds of runes and a granted move that makes it overfull |
| `RuneMoves.SecondRuneIsLost` | src/container.cpp:460-462 | in whatever state that move leaves, a second granted move destroys a rune |
| `MoveRuns.MoveOne` | src/game.cpp:1050-1219 | one move among items without runes conserves every kind and all capacities |
| `MoveRuns.TakeOrder` | src/game.cpp:906-935 | an order that names nothing known is refused and changes nothing; after any other the item that was moved or split off is known too |
| `MoveRuns.MoveAll` | src/game.cpp:1050-1219 | so does any run of moves, of items known before and of those made by earlier moves of the run; each step of the trace is one move with its code; containment stays a forest with right weights and stacks within bounds |
| `ItemAdding.AddFits` | src/game.cpp:1242-1258 | an item that goes onto no stack finds a free slot, with stacking on and but for runes |
| `ItemAdding.RemainderFits` | src/game.cpp:1266-1276 | after a stack is filled up the recursive call for the remainder is accepted, with stacking off exactly if a slot is free, if the carrier takes every smaller amount too |
| `ItemAdding.AnywhereFits` | src/game.cpp:1489-1530 | an item without a given place leaves no remainder and overfills nothing, but for runes |
| `ItemAdding.StackingFits` | src/game.cpp:1228-1303 | with stacking on nothing remains, and only runes overfill |
| `ItemAdding.CheckAdd` | src/game.cpp:1235-1254 | place and answer |
| `ItemAdding.LocalThen` | src/game.cpp:1266-1276 | the recursive call for a remainder changes only the same places |
| `ItemAdding.InternalAddItem` | src/game.cpp:1228-1303 | refused, or with the flag for a dry run, nothing changes; else containers gain exactly the count less the remainder, or nothing if it is a rune whose place is beyond the capacity, only in front of the list or on stacks of the container asked or the one it leads to; the stack at the place grows first, up to a hundred; what fits on it adds nothing to any list; the rest fills the other stacks in their order, and only when all are full one new item lies in front; what goes onto no stack lies in front as it is; the remainder is all that does not go onto the stack exactly if stacking is off and the container full, else none; a container gets overfull exactly if it was full and the item got a place of its own |
| `ItemAdding.RestSpreads` | src/game.cpp:1266-1276 | what one stack leaves over goes to the first other one with room, and so on |
| `MoveLaws.AddsExactly` | src/game.cpp:1235-1254 | granted exactly if the item is welcome at its place and there is room for all of it |
| `Money.MintedExact` | src/game.cpp:1489-1530 | below 4294970000 the three kinds of coins are worth exactly the amount and platinum and gold are under a hundred, in the widths of the code |
| `Money.MintedWraps` | src/game.cpp:1495-1496 | at 4294970000 the product wraps and 4096 too many are given |
| `Money.MintedExactly` | src/game.cpp:1489-1530 | for every amount, when the coins are worth it, both ways |
| `Money.GiveCoins` | src/game.cpp:1500-1507 | a new stack is added anywhere, or lies on the tile exactly if that is refused |
| `Money.SmallFits` | src/game.cpp:1512-1530 | below the limit all stacks made hold 1 to 100 |
| `Money.RollsAre` | src/game.cpp:1497-1508 | crystal coins come in as few stacks as a hundred each allow, all but the last full |
| `Money.GivesMean` | src/game.cpp:1489-1530 | a run of such gifts gives exactly the piles named, whatever is counted |
| `Money.AddMoney` | src/game.cpp:1489-1530 | the stacks made are those of the crystal, platinum and gold coins that the code mints, in that order; each is added or lies on the tile exactly if that was refused; for each kind containers and tile gain exactly its number; they are worth the amount exactly under that condition; nothing that lay in a container is lost or smaller, and nothing changes but in front of this container and on stacks in it |
| `Purse.EmplaceSorted` | src/game.cpp:1422-1444 | the entries stay sorted by worth |
| `Purse.EmplaceStable` | src/game.cpp:1422-1444 | an entry comes after those of equal worth |
| `Purse.FrontierStep` | src/game.cpp:1447-1464 | the search meets each container and each coin once |
| `Purse.Looked` | src/game.cpp:1449-1463 | coins found in a list and the containers queued make up its whole worth |
| `Purse.Collect` | src/game.cpp:1420-1464 | the search ends, the sum is the worth of all coins in the tree at every depth, entries are distinct and sorted by worth, and among equals come as a breadth-first search meets them |
| `Purse.InsideClosed` | src/game.cpp:1447-1464 | what lies in a container at any depth is closed under parents up to it, which frames every payment |
| `Purse.ChangeFor` | src/game.cpp:1476-1479 | the coins taken from the last stack are enough, at most what it has, and too much by at most one coin |
| `Purse.TakeCoins` | src/game.cpp:1470-1487 | the removal is never refused and takes exactly that worth; nothing but the stack and its list changes |
| `Purse.PayAndChange` | src/game.cpp:1475-1481 | worth falls by exactly the amount, even if the change merges onto the very stack paid from: change for one coin more than needed is given first, then so many coins go |
| `Purse.RemoveMoney` | src/game.cpp:1410-1487 | refused exactly if the tree is worth less, and then nothing changes; else the cheapest stacks go whole while they are worth less than what is left, and the last one whole or in part with its change; all coins with those dropped on the tile are worth exactly the amount less; nothing outside the tree changes and nothing in it moves |
| `OtbFormat.UnescapeEscape` | src/fileloader.cpp:212-229 | unescaping undoes escaping |
| `OtbFormat.ParsedIsReadable` | src/fileloader.cpp:98-193 | on every file, well formed or not, the nodes of a successful parse lie inside the file and their properties end in no open escape |
| `OtbFormat.ParsesExactly` | src/fileloader.cpp:98-193 | on every file, parsing succeeds exactly if nodes stand there one behind the other, with clean properties, up to an end mark or the end, and gives just those |
| `OtbFormat.UnescapeJoin` | src/fileloader.cpp:212-229 | unescaping goes byte by byte, also where a byte is escaped that need not be |
| `OtbFormat.NodeRoundTrip` | src/fileloader.cpp:98-193 | the encoding of any tree, anywhere in a file, parses to that tree and ends behind it |
| `OtbFormat.ChainRoundTrip` | src/fileloader.cpp:98-193 | the same of a chain of siblings |
| `OtbFormat.FileRoundTrip` | src/fileloader.cpp:53-193 | four identifier bytes and an encoded root parse to that root |
| `OtbReader.CacheSizes` | src/fileloader.cpp:79 | opening chooses one of four block sizes by the size of the file, one of which is no power of two |
| `OtbReader.BlockCovers` | src/fileloader.cpp:374-390 | the block computed for a position holds that position, for every block size |
| `OtbReader.FileLoader.LoadCacheBlock` | src/fileloader.cpp:374-419 | the first block not loaded, else the first far away, else the first, then covers the position; the others stay, and every block keeps holding bytes of the file |
| `OtbReader.FileLoader.GetCacheBlock` | src/fileloader.cpp:353-372 | a block that covers the position; nothing is loaded if one is there |
| `OtbReader.FileLoader.SafeSeek` | src/fileloader.cpp:330-340 | the cursor is at the position |
| `OtbReader.FileLoader.SafeTell` | src/fileloader.cpp:342-351 | the position of the byte read last |
| `OtbReader.FileLoader.ReadByte` | src/fileloader.cpp:275-298 | reads exactly the byte at the cursor of the plain file, and fails exactly at its end |
| `OtbReader.FileLoader.ReadBytes` | src/fileloader.cpp:300-328 | the loop ends and the buffer holds exactly those bytes of the file |
| `OtbReader.FileLoader.ParseNode` | src/fileloader.cpp:98-193 | through the cache, the parse succeeds exactly if the format says so and gives its nodes; an invalid format is reported exactly for a byte behind a node that is no marker |
| `OtbReader.FileLoader.OpenFile` | src/fileloader.cpp:53-96 | opens exactly files with the identifier or the wildcard and a readable root, with the error codes |
| `OtbReader.FileLoader.GetProps` | src/fileloader.cpp:195-233 | the unescaped properties, in the shared buffer |
| `OtbReader.FileLoader.UnescapeBuffer` | src/fileloader.cpp:211-229 | unescaping in place, with the shift it needs |
| `OtbReader.FileLoader.ReadTree` | src/fileloader.cpp:195-273 | walking all nodes through the one buffer and cursor gives the contents of the tree |
| `OtbReader.ReadBack` | src/fileloader.cpp:53-419 | a file written for any tree is read back as that tree |
| `ItemTree.QueueIsLevelOrder` | src/container.cpp:687-705 | the queue visits level after level |
| `ItemTree.LevelOrderIsComplete` | src/container.cpp:672-705 | breadth first meets every item exactly as often as it is there |
| `ItemTree.BelowByLevels` | src/container.cpp:672-705 | below a container it meets what depth first meets, as many |
| `ItemTree.ContainerIterator.constructor` | src/container.cpp:672-680 | the iterator starts with all that is below, by levels |
| `ItemTree.ContainerIterator.Advance` | src/container.cpp:687-705 | each step takes exactly the current item off what remains |
| `ItemTree.GetItemHoldingCount` | src/container.cpp:184-191 | ends with the number of strict descendants |
| `ItemTree.IsHoldingItem` | src/container.cpp:193-201 | true exactly if an equal tree is below |
| `HeapSearch.SearchStep` | src/container.cpp:687-705 | one container more looked through keeps what the search knows, and there is less to do |
| `HeapSearch.IsHoldingItem` | src/container.cpp:193-201 | over the linked objects the search ends and is true exactly if the very item is reachable below |
| `ItemRows.SaveItems` | src/iologindata.cpp:524-582 | one row for each item at every depth, numbered from 101 upwards breadth first, so no number is that of a slot or depot, and the rows of each container name its number in order |
| `ItemRows.Loader.LoadItems` | src/iologindata.cpp:886-910 | all items of the rows, unattached |
| `ItemRows.Loader.InternalAddThing` | src/container.cpp:653-663 | the item is put in front and its weight added |
| `ItemRows.Loader.Rebuild` | src/iologindata.cpp:414-434 | from the highest number down, each item is put in front of its container or slot, which then holds exactly its rows |
| `ItemRows.ForestIsLying` | src/iologindata.cpp:414-434 | the containers rebuilt describe the forest the rows spell out |
| `ItemRows.PlacedLying` | src/iologindata.cpp:524-560 | the rows of a slot are the items placed there |
| `ItemRows.SaveAndLoad` | src/iologindata.cpp:414-582 | saving and loading gives every slot its forest back, in order, with right cached weights |
| `ItemFormat.PayloadRoundTrip` | src/fileloader.h:166-198 | a value written is the value read, whatever follows |
| `ItemWire.TagTable` | src/item.h:66-100 | which tag stands for which attribute, and the order in which they are written |
| `ItemWire.KindTable` | src/item.cpp:383-641 | what follows each tag; all others are errors |
| `ItemWire.AttrWire` | src/item.cpp:662-768 | the bytes of an attribute that is written |
| `ItemWire.WrittenWhen` | src/item.cpp:662-717 | when count, charges, action id, date and decay state are written, and with which value |
| `ItemWire.TextsWrittenWhen` | src/item.cpp:684-706 | when texts are |
| `ItemWire.WrittenIfSet` | src/item.cpp:708-767 | when the others are |
| `ItemWire.ItemWireIs` | src/iomapserialize.cpp:217-235 | id, attributes, contents and end mark of an item |
| `ItemWire.StoreOthers` | src/item.cpp:383-641 | a unique id is only taken over by an item without one, and the tags of other classes change nothing |
| `ItemWire.ReadEnds` | src/item.cpp:643-660 | where reading attributes ends and where it fails |
| `ItemWire.LoadUnknown` | src/iomapserialize.cpp:134-150 | an unknown id takes two bytes and gives no item |
| `ItemWire.CreatedTable` | src/item.cpp:70-78 | the ids that creation replaces |
| `ItemFormat.ItemRoundTrip` | src/iomapserialize.cpp:116-165 | reading what was written, with anything behind it, consumes exactly that and rebuilds the tree attribute by attribute as written |
| `ItemFormat.ContentsRoundTrip` | src/iomapserialize.cpp:116-132 | written last to first and each put in front, the contents come out in their old order |
| `ItemFormat.FlatMeans` | src/item.cpp:382-768 | which value each attribute has after reading |
| `ItemFormat.KeySurvivesExactly` | src/item.cpp:382-768 | the condition under which one attribute comes back unchanged, both ways |
| `ItemFormat.TreeSurvivesExactly` | src/iomapserialize.cpp:217-235 | a tree comes back as it was at every depth exactly if each item does |
| `ItemFormat.LoadAfterSave` | src/iomapserialize.cpp:116-235 | reading after writing is the identity up to a pending decay state exactly on those trees |
| `ItemFormat.UsedUpChargesComeBack` | src/item.cpp:670-674 | an item with no charges left comes back with all of them |
| `ItemStream.PropWriteStream.Reserve` | src/fileloader.h:263-275 | room for the bytes, what is written kept |
| `ItemStream.PropWriteStream.Write` | src/fileloader.h:242-247 | exactly the bytes are appended |
| `ItemStream.PropWriteStream.WriteString` | src/fileloader.h:249-261 | the length and the string, or an empty one if it is too long |
| `ItemStream.PropStream.Read` | src/fileloader.h:168-177 | exactly the next bytes, or nothing at all |
| `ItemStream.SerializeAttr` | src/item.cpp:662-768 | the bytes of all attributes |
| `ItemStream.SaveItem` | src/iomapserialize.cpp:217-235 | the bytes of the tree |
| `ItemStream.UnserializeAttr` | src/item.cpp:643-660 | the attributes up to the end mark or the contents |
| `ItemStream.LoadItem` | src/iomapserialize.cpp:134-165 | the item and what is left of the stream, or failure |
| `ItemStream.LoadContainer` | src/iomapserialize.cpp:116-132 | the contents and the end mark, or failure |
| `ItemStream.SaveThenLoad` | src/iomapserialize.cpp:116-235 | through two streams the tree comes back exactly if each of its items survives |
| `WalkCache.StepKeepsAccurate` | src/creature.cpp:527-609 | after any one-tile step but a southern diagonal the shifted cache is the fresh one everywhere but on the own tile |
| `WalkCache.SouthDiagonalGoesWrong` | src/creature.cpp:527-609 | a map on which a southern diagonal leaves a wrong answer |
| `WalkCache.AccurateExactlyWhen` | src/creature.cpp:527-609 | a step is right on all maps exactly if it is no southern diagonal |
| `WalkCache.Creature.UpdateMapCache` | src/creature.cpp:336-350 | every cell is fresh |
| `WalkCache.Creature.UpdateTileCache` | src/creature.cpp:352-367 | exactly the cell of the tile is read again |
| `WalkCache.Creature.OnOwnMove` | src/creature.cpp:489-609 | a jump or floor change rereads all, a step shifts |
| `WalkCache.Creature.OnOwnStep` | src/creature.cpp:527-609 | the loops compute the shifted cache, in place |
| `WalkCache.Creature.GetWalkCache` | src/creature.cpp:369-398 | the answer is that of the map inside the window, not known outside |
| `WalkCache.RunKeepsGood` | src/creature.cpp:400-609 | over any run without a southern diagonal the cache stays right |
| `WalkCache.Creature.Take` | src/creature.cpp:400-609 | one event through the code is its effect on the window |
| `WalkCache.Creature.TakeAll` | src/creature.cpp:400-609 | a run of events through the code leaves the window of the run, and a right cache if none was a southern diagonal and the cache was right or all begins with a jump |
| `WalkCache.RunAfterJump` | src/creature.cpp:507-526 | a jump repairs whatever was wrong |
| `DamageList.CloserMeans` | src/condition.cpp:1240-1241 | the comparison of two quotients, in whole numbers |
| `DamageList.NearestIsOne` | src/condition.cpp:1237-1241 | there is only one number of hits at which the inner loop ends |
| `DamageList.HitsOf` | src/condition.cpp:1237-1241 | the inner loop ends, at least one hit, closest to the target |
| `DamageList.GenerateDamageList` | src/condition.cpp:1229-1247 | ends with a non-increasing list of every strength from start to 1, of each exactly as many as bring the sum within half a hit of its share of the amount; sum at least the amount and at most start(start+1)/2 more, exact from start(start+1) on |
| `CombatDamage.HitDrains` | src/game.cpp:3436-3524 | a hit drains the damage, or all of health and, behind a shield, mana |
| `CombatDamage.ManaFirst` | src/game.cpp:3436-3480 | health is touched only when no mana is left, or none stands in for it |
| `CombatDamage.Creature.AddDamagePoints` | src/creature.cpp:1058-1078 | the entry of the attacker grows by positive points |
| `CombatDamage.Creature.CombatChangeHealth` | src/game.cpp:3394-3524 | healing up to the maximum, and only of the living; a hit that drains mana first behind a shield, then health, in all the damage or all there is, and credits exactly that; nothing of what cannot be attacked |
| `CombatDamage.Creature.TakeHits` | src/game.cpp:3394-3524 | a run of hits and healings through the code is the run of their effects |
| `CombatDamage.CreditIsExact` | src/creature.cpp:846-863 | over any run of hits and healings each entry grows by exactly what that attacker drained |
| `CombatDamage.DrainIsConserved` | src/game.cpp:3436-3524 | over any run what was drained is what health and mana lost and healing gave back |
| `CombatDamage.GetGainedExperience` | src/creature.cpp:1033-1056 | the share of the damage, rounded down, as a division of whole numbers |
| `CombatDamage.OnDeath` | src/creature.cpp:671-700 | every creature gets the rounded shares of all attackers that lead to it, and all together never more than was lost |
| `CombatDamage.DueNothing` | src/creature.cpp:671-700 | who leads no attacker gets nothing |
| `CombatDamage.DueSplits` | src/creature.cpp:671-700 | each attacker that is present and not the dead one adds its rounded share for who leads it, wherever it stands in the list |
| `DecayWheel.DecayTime` | src/game.cpp:3750-3792 | less than a second: the next tick; else four times the seconds, one tick later if at least 875 milliseconds are over |
| `DecayWheel.DueFromStart` | src/game.cpp:3716-3912 | the tick on which a started item is due in a run: the period of its time after the first cleanup, or after a tick that comes before |
| `DecayWheel.FiledWaits` | src/game.cpp:3904-3910 | the bucket for a new item is the one that is looked through after its first wait |
| `DecayWheel.Wheel.File` | src/game.cpp:3727-3730 | one reference more, marked, in front of the new items |
| `DecayWheel.Wheel.StartDecay` | src/game.cpp:3716-3734 | files an item with time left, lets one without decay at once, leaves all others |
| `DecayWheel.Wheel.InternalDecayItem` | src/game.cpp:3736-3748 | what goes is held no more and waits for release; what turns into something else has its new time and state, and waits to be filed if it can decay; what is replaced is gone and has such an heir; at once again if no time is left; no other item is touched |
| `DecayWheel.TurnedCleaned` | src/game.cpp:3736-3912 | after the cleanup what waited for release is freed and what waited to be filed is in its bucket |
| `DecayWheel.Wheel.Cleanup` | src/game.cpp:3890-3912 | gives back one reference per entry, frees exactly what nobody holds, files each new item behind the bucket for its time, in order |
| `DecayWheel.Wheel.LookAt` | src/game.cpp:3759-3788 | an item decays and becomes what its fate says, moves to the next bucket or stays, as its time says; one that can no longer decay is unmarked and let go; the others keep their place |
| `DecayWheel.Wheel.CheckDecay` | src/game.cpp:3750-3792 | one bucket is looked through; the place of every item that is listed once is the one its time says; what decayed became what its fate says; what can no longer decay is freed or left unmarked |
| `DecayWheel.Wheel.Tick` | src/game.cpp:3750-3792 | every such item is one tick closer, and decays exactly if it is due, to what its fate says |
| `DecayWheel.Wheel.Run` | src/game.cpp:3716-3912 | over every run an item that nothing else alters, started, filed or in a bucket, decays on exactly the tick its time says; one that goes or is replaced then is freed from then on; references equal the place plus the entries in all lists |
| `DecayWheel.BecomesWaits` | src/game.cpp:3736-3912 | an item that becomes something that decays is on its way again |
| `DecayWheel.HeirWaits` | src/game.cpp:3736-3912 | so is the heir of one that is replaced |
| `DecayWheel.Wheel.NewIsIdle` | src/game.cpp:3716-3734 | a new item is in no list |
| `DecayWheel.Wheel.StartAndRun` | src/game.cpp:3716-3912 | an item started with duration D decays on tick 4(D/1000), one later if D mod 1000 is at least 875, on the next tick if D is below 1000, counted from its filing, and on no earlier one |
| `Trade.Game.InternalStartTrade` | src/game.cpp:2360-2391 | a first offer, an answer, or a refusal that changes nothing, exactly when |
| `Trade.Game.PlayerRequestTrade` | src/game.cpp:2311-2358 | accepted exactly if neither the item nor what it holds or is held by is on offer and both sides are free for each other |
| `Trade.Game.PlayerAcceptTrade` | src/game.cpp:2393-2492 | the new state of all players and offers; with both sides accepted both are free afterwards and no transfer is visible; the items change hands exactly if no check on the way refuses |
| `Trade.Game.HandOver` | src/game.cpp:2433-2490 | also if notifications close trades meanwhile |
| `Trade.Game.InternalCloseTrade` | src/game.cpp:2591-2633 | both sides free, exactly their two offers withdrawn, nothing during a transfer |
| `Trade.Game.Run` | src/game.cpp:2311-2633 | over any run of requests, acceptances and closings all players and offers are as the steps say, links, states and offers stay in order, no transfer is visible and no reference is gained or lost |
| `Trade.Game.Withdraw` | src/game.cpp:2425-2440 | the entry goes and its reference waits for release; no reference is gained or lost |
| `DatabaseTasks.StepKeepsInv` | src/databasetasks.cpp:34-101 | every step of every thread keeps order, mutual exclusion and the owed notification |
| `DatabaseTasks.ReachableIsSafe` | src/databasetasks.cpp:34-101 | in every interleaving accepted tasks are the taken ones followed by the waiting ones, in order; while running, a sleeping worker with work has a notification on its way |
| `DatabaseTasks.HistoryGrows` | src/databasetasks.cpp:34-67 | what was accepted or taken stays so |
| `DatabaseTasks.AcceptedIsHandedIn` | src/databasetasks.cpp:54-67 | what is accepted is exactly what was handed in before the queue closed, in that order |
| `DatabaseTasks.NextCanBeTaken` | src/databasetasks.cpp:34-67 | in every reachable state with a task waiting some steps lead to the next one being taken |
| `DatabaseTasks.NothingLeftBehind` | src/databasetasks.cpp:86-101 | after shutdown every accepted task was taken, for good |
| `DatabaseTasks.StrandedExactlyWhen` | src/databasetasks.cpp:94-101 | after shutdown the worker never leaves exactly if it was between its check and its wait when notified |
| `DatabaseTasks.WorkerLeaves` | src/databasetasks.cpp:34-52 | otherwise its next step leads it out |
| `DatabaseTasks.ShutdownCanStrandWorker` | src/databasetasks.cpp:94-101 | an interleaving in which it sleeps on |
| `SpeedConditions.Creature.StartCondition` | src/condition.cpp:1326-1340 | the end of the condition is fixed, its speed change if left to the formula; the speed changes by exactly that |
| `SpeedConditions.Creature.Renew` | src/condition.cpp:1352-1383 | a permanent condition stays against one that ends; else time and speed change are taken over and the old change undone |
| `SpeedConditions.Creature.EndAt` | src/condition.cpp:1347-1350 | an ended condition takes its delta back |
| `SpeedConditions.Creature.AddCondition` | src/creature.cpp:1188-1215 | put off, renewed, or started at the end with its opposite driven out, exactly when; speed less the sum of active deltas stays, and at most one condition per type, id and subId |
| `SpeedConditions.Creature.OnAddCondition` | src/creature.cpp:1080-1087 | if the opposite of a new haste or paralysis is active all of its type go, but for paralysis during a walk delay; else nothing changes |
| `SpeedConditions.Creature.RemoveCondition` | src/creature.cpp:1232-1257 | exactly the conditions of the type end, the others stay in order, with the same balance; none during a walk delay |
| `SpeedConditions.Creature.ExecuteConditions` | src/creature.cpp:1342-1360 | exactly those whose time is up end, the others are a round older, with the same balance |
| `SpeedConditions.OlderLasts` | src/condition.cpp:149-158 | after a round no condition is left whose time is up, and none is lost whose time is not |
| `SpeedConditions.Creature.HasCondition` | src/creature.cpp:1362-1380 | active and not suppressed |
| `SpeedConditions.Creature.Run` | src/creature.cpp:1188-1360 | over any sequence of all of these, each step as above; with no condition left the speed is what it was |
| `AreaMatrix.RotationInBounds` | src/combat.cpp:1121-1166 | every write of a rotation lies in an output twice as large |
| `AreaMatrix.Rotate` | src/combat.cpp:1121-1166 | the output covers exactly the turned offsets around its centre, so no two cells collide |
| `AreaMatrix.MirrorArea` | src/combat.cpp:1099-1109 | what the loop covers, with the centre it computes |
| `AreaMatrix.FlipArea` | src/combat.cpp:1110-1120 | the same |
| `AreaMatrix.MirrorExactly` | src/combat.cpp:1099-1109 | it is the mirror image exactly if the area is square or empty |
| `AreaMatrix.FlipExactly` | src/combat.cpp:1110-1120 | it is the flipped image exactly if the area is square or empty |
| `AreaMatrix.MirrorOneRow` | src/combat.cpp:1099-1109 | a row of two tiles whose mirror image is wrong |
| `AreaMatrix.CreateArea` | src/combat.cpp:1169-1200 | cells and size from the list, and the last cell marked as centre |
| `AreaMatrix.SetupArea` | src/combat.cpp:1202-1225 | north is the list; east, south and west are north turned |
| `AreaMatrix.SetupExtArea` | src/combat.cpp:1297-1325 | north-west is the list; the other diagonal areas are mirror images, off by the difference of columns and rows |

## Left out

- Scripts and event callbacks: none are registered in the model.
- SQL, sockets, timers, configuration and XML: tables are sequences of rows, time and random values are parameters.
- Client messages, spectators and effects.
- Players, tiles and maps: the carrier of a container answers by a fixed function of container, kind and amount; what that answer needs to be is written as `Monotone` where it matters. Walkability and distances are parameters.
- Moves with FLAG_NOLIMIT: `addThing` drops items silently there; only coins dropped on a tile are modelled, as a list of piles.
- The exchange branch of `internalMoveItem`: a container never asks for it.
- The item moves inside `playerAcceptTrade`: they depend on players; what the checks and the first move answer is the parameter `checks`, what they may notify the parameter `closing`.
- `transformItem`: it changes the count before the old weight is read, so it is no part of the weight invariant; in `DecayWheel` what an item turns into is a parameter.
- `setID` on merging stacks: it may reset decay attributes; the model keeps the kind of the stack.
- Item subclasses (beds, doors, depots, teleports, trash holders): items are plain items or containers, one class in `ItemHeap` with a flag.
- 32-bit overflow of weights, durations of 2^31 milliseconds or more, and files of 2^31 bytes or more.
- Floating point: ratios and the damage comparison are exact reals.
- `addItemBack`, `clone` of containers and loading items from map files: easier than what is modelled.
- Other conditions than speed: they only take part in the list, with no effect of their own.
- ItemFormat.LoadAfterSave: items with an id that creation replaces by another one (ten worn rings) are excluded, because they come back as the replacement.
- OtbReader.FileLoader.ReadBytes: asked for bytes beyond the end of the file the loop of the code does not end; every node that `parseNode` produces is proved to be inside the file.
- OtbReader.FileLoader.ReadTree: child and sibling pointers are sequences.
- Trade.Game.PlayerRequestTrade: `tradeItems` maps an item to the player, not to the player's number, and the checks on distance, sight and size are one parameter.
- ItemTree.ContainerIterator.Advance: the iterator runs over trees as values, not over the linked objects of `ItemHeap`.
- ItemRows.Loader.UpdateItemWeight: on a container that lies in another one the model only states that no entry is added or lost; rebuilding never calls it so.
- Purse.Collect: the multimap is a sequence kept sorted, with entries of equal worth in the order they came.
- Money.Unit: coin types are stackable and no runes in the item table.
- ItemHeap.Item.UpdateThing: the attributes that `setID` resets are left to the caller, who gives the new kind.
- ItemHeap.Item.RemoveThing: a count above that of the stack, which the code turns into an empty stack, is excluded; every caller asks `queryRemove` first.
- ItemMoves.Game.QueryAdd: the branch for FLAG_NOLIMIT; that for FLAG_CHILDISOWNER is part of the carrier's answer.
- ItemMoves.Game.QueryMaxCount: the branch for FLAG_NOLIMIT.
- ItemMoves.Game.CheckMove: the exchange branch.
- ItemMoves.Game.InternalRemoveItem: `canRemove` is true of plain items and containers.
- ItemTree.IsHoldingItem: compares trees as values; `HeapSearch.IsHoldingItem` compares objects, as the code does.
- Money.AddMoney: amounts from which wrapping makes a stack of none or of more than a hundred coins are excluded, because such a stack breaks the bound that every other operation keeps.
- OtbReader.FileLoader.SafeSeek: positions beyond the end of the file, which no caller asks for.
- ItemRows.Loader.LoadItems: rows that are not numbered as saving numbers them.
- ItemRows.Loader.InternalAddThing: a container that already lies in another one, which does not occur from the highest number down.
- ItemStream.LoadItem: the branch for stationary items that already lie on a house tile, and the call of `startDecaying` after each item is loaded, which marks a waiting item as decaying or lets a used-up one decay at once.
- CombatDamage.Creature.AddDamagePoints: the time stamp of the entry and the last attacker.
- DecayWheel.Wheel.InternalDecayItem: what the item turns into is a parameter, for every possible chain of decays.
- Trade.Game.PlayerAcceptTrade: the item moves, which depend on players; `exchanged` says whether they are made.
- Trade.Game.HandOver: the same.
- SpeedConditions.Creature.AddCondition: the addition that is put off by a walk delay is a later event of the run, with force.
- AreaMatrix.CreateArea: zero rows, or a list that is no multiple of the rows, for which the code writes outside the matrix.
- AreaMatrix.SetupArea: the same.
- AreaMatrix.SetupExtArea: the same.
