# hesperus, modelled in Dafny

This project models the parts of the hesperus game engine and of its map
editor that read, write and transform data deterministically, and proves
what they promise.

- **Level-file sections.** The navigation section covers the nav mesh
  (links and polygons), the adjacency list, and the path table as an
  opaque block. There are also the leaf-visibility and lightmap-prefix
  sections, and the line reader they are all built on.
- **The `mef2input` tool.** It turns a map-editor file (MEF 3) into the
  compiler's brushes and lights.
- **The other command-line tools.** The argument checks of `hbsp`, and the
  output naming and brush expansion loop of `hexpand`.
- **The map editor.** It loads and saves `.mef` files with their texture
  segment. It also covers the light brush and the translate / undo
  machinery of translatable brushes, and the map-wide translation command.
- **Affine matrices and the model matrix.** The rigid-body transform matrix
  `RBTMatrix`, and the model matrix of `CmpModelRender`.
- **The planar lightmap grid.**
- **Game-object state.**
  - The entity manager.
  - The usable, ownable and collision components.
  - Physics objects and contacts.
  - The projectile-absorbing contact resolver.
  - The posture-change command.
  - The nav-mesh movement state machine of `CmpMovement`.
  - Walk links.

Each file of the program becomes one Dafny module.

- **Readers.** A reader is a function over `(lines, position)` that says
  what is read and where reading stops. A `LineStream` method performs the
  same read step by step, and is proved to agree with the function.
- **Writers.** A writer is a method, proved to produce the text of a
  function.
- **Round trips.** Lemmas prove them: what is written and then read back
  is the original value.
- **Objects whose fields the source updates in place are classes.**
  Examples are `RBTMatrix` over its 12-entry array, the components,
  `PhysicsObject`, `CmpMovement`, the brushes and the texture manager.
  Their methods state the complete new state.
- **Collaborators whose code is not part of this model are parameters.**
  Examples are number formatting, nav-link construction, geometry tests,
  property lookups and per-brush loaders.

## Model

| member | source | states |
|---|---|---|
| LineIO.ReadLineAt | trunk/source/io/LineIO.cpp:35-38 | succeeds exactly when a line is left, returning that line unchanged and advancing by one; at end of input, "Unexpected EOF whilst trying to read " + description |
| LineIO.ReadCheckedAt | trunk/source/io/LineIO.cpp:20-25 | succeeds exactly when the next line equals `expected`, consuming it; EOF gives the EOF error with `expected` as description; a different line gives "Expected " + expected |
| LineIO.GetLineAt | trunk/source/io/sections/NavSection.cpp:178 | an unchecked `std::getline`: the next line and one step on, or no step at end of input (with an empty line that every caller ignores or follows with its own end-of-input check) |
| LineIO.LineStream.ReadLine | trunk/source/io/LineIO.cpp:35-38 | agrees with `ReadLineAt` on result and new position; a failed read consumes nothing |
| LineIO.LineStream.ReadCheckedLine | trunk/source/io/LineIO.cpp:20-25 | agrees with `ReadCheckedAt` on result and new position |
| LineIO.LineStream.GetLine | trunk/source/io/sections/NavSection.cpp:178 | agrees with `GetLineAt` on line and new position |
| Common.ExtractIntOfWord | trunk/source/io/sections/NavSection.cpp:201 | `>>` into an `int` extracts a whole word that `lexical_cast<int>` accepts when no digit follows it, leaving the rest of the text |
| Common.ExtractIntSkips | trunk/source/io/sections/NavSection.cpp:197-201 | white space in front of an int is skipped (`std::skipws`) |
| Common.ExtractTwoWords | trunk/source/io/sections/NavSection.cpp:201 | `ss >> a >> b` on two int words separated by a space reads both, in order, leaving what follows |
| Common.GluedSignHead | trunk/source/io/sections/NavSection.cpp:201 | an int followed at once by a negative int reads as two ints: the minus sign ends the first |
| LineIO.Prefixed | trunk/source/io/sections/NavSection.cpp:45-57 | values gathered by a loop so far come, in order, before what the rest of the loop reads; errors pass through |
| LineIO.PrefixedStep | trunk/source/io/sections/NavSection.cpp:111-152 | a loop step that reads one more value keeps the loop's whole outcome unchanged |
| VisTable.VisTable.constructor | trunk/source/level/vis/VisTable.h:39 | an n×n table, size n, every cell equal to the initial value |
| VisTable.VisTable.Cells | trunk/source/level/vis/VisTable.h:44 | the table read row by row, N rows of N cells each, cell (i, j) being what const `operator()` returns |
| VisTable.VisTable.Set | trunk/source/level/vis/VisTable.h:43 | a write through `operator()(i, j)` changes cell (i, j) only; the size and every other cell are unchanged |
| FileSectionSave.LightmapPrefixLines | trunk/source/io/FileSectionUtil_Save.cpp:17-23 | the prefix section is exactly `LightmapPrefix`, `{`, the prefix and `}` as four lines, when the prefix has no line break |
| FileSectionSave.CellChar | trunk/source/io/FileSectionUtil_Save.cpp:44-56 | a cell is written '0' exactly when it is NO and '1' exactly when it is YES |
| FileSectionSave.RowText | trunk/source/io/FileSectionUtil_Save.cpp:42-57 | a row is N characters, column j holding cell j's character |
| FileSectionSave.DecodeRowText | trunk/source/io/FileSectionUtil_Save.cpp:42-57 | a written row decodes back to its cells |
| FileSectionSave.VisSectionLayout | trunk/source/io/FileSectionUtil_Save.cpp:35-61 | `VisTable`, `{`, N in decimal, N rows of N characters with cell (i, j) at column j of row i, '0' for NO and '1' for YES, then `}` |
| FileSectionSave.VisSectionReadBack | trunk/source/io/FileSectionUtil_Save.cpp:35-61 | split into lines, the section gives back its size line and every row |
| FileSectionSave.VisSectionRows | trunk/source/io/FileSectionUtil_Save.cpp:38-59 | the size line reads back as N and line 3 + i is row i |
| FileSectionSave.VisRowStep | trunk/source/io/FileSectionUtil_Save.cpp:40-59 | writing row i after the header and rows 0 … i−1 extends the section text by that row |
| FileSectionSave.WriteRow | trunk/source/io/FileSectionUtil_Save.cpp:42-58 | the inner loop writes exactly `RowText` of row i followed by a line break |
| FileSectionSave.SaveVisSection | trunk/source/io/FileSectionUtil_Save.cpp:31-62 | the stream text is exactly the vis section of the table: header, size, rows in order, closing brace |
| NavSection.RereadListExact | trunk/source/io/sections/NavSection.cpp:300 | when numbers read back exactly as written, writing and reading an adjacency list changes nothing |
| NavSection.EdgeAt | trunk/source/io/sections/NavSection.cpp:138-150 | one group succeeds exactly when it is `(`, an int, a number and `)`; a missing `(` or `)` gives its message, a bad number "Bad edge in adjacency list entry i" |
| NavSection.EdgesFrom | trunk/source/io/sections/NavSection.cpp:136-151 | n groups of four tokens give n edges, edge k from the group at 1 + 4k, in order; the first bad group's error stops the parse |
| NavSection.GroupCount | trunk/source/io/sections/NavSection.cpp:123 | a token count ≡ 1 (mod 4) holds (count − 1) / 4 groups after the first token |
| NavSection.GroupsOf | trunk/source/io/sections/NavSection.cpp:123 | n groups after one token make a count ≡ 1 (mod 4) |
| NavSection.AdjacencyEntryMeaning | trunk/source/io/sections/NavSection.cpp:113-151 | no tokens: "Missing adjacency list entry i"; count not 4n + 1: "Bad adjacency list entry i"; success: first token parses as i and the line holds one group per edge, in order |
| NavSection.ParseAdjacencyEntry | trunk/source/io/sections/NavSection.cpp:115-151 | the entry checks and edge loop compute exactly `AdjacencyEntry` |
| NavSection.EdgesFromStep | trunk/source/io/sections/NavSection.cpp:136-151 | one parsed group, in front of the groups after it, is the parse from that group on |
| NavSection.ParseEdges | trunk/source/io/sections/NavSection.cpp:136-151 | the edge loop computes exactly `EdgesFrom` |
| NavSection.GroupJoin | trunk/source/io/sections/NavSection.cpp:300 | an edge's text `( to length )` is its four tokens joined by spaces |
| NavSection.EdgeTokensAreTokens | trunk/source/io/sections/NavSection.cpp:300 | every token written for an edge is non-empty and free of spaces |
| NavSection.EntryLineTokens | trunk/source/io/sections/NavSection.cpp:296-304 | a written entry line splits on spaces into `i` followed by the edge tokens |
| NavSection.EntryOfGroups | trunk/source/io/sections/NavSection.cpp:121-151 | an entry whose count and first token pass the checks reads as its edge groups |
| NavSection.EntryOfTokens | trunk/source/io/sections/NavSection.cpp:121-151 | a line made of `i` and the tokens of some edges reads back as those edges |
| NavSection.EntryRoundTrip | trunk/source/io/sections/NavSection.cpp:294-304 | a written entry line reads back as the same edges in the same order, with lengths passed through their text form |
| NavSection.JoinLoopStep | trunk/source/io/sections/NavSection.cpp:298-303 | writing group k after groups 0 … k−1, with a space only between groups, extends the joined text |
| NavSection.WriteAdjacencyEntry | trunk/source/io/sections/NavSection.cpp:296-304 | the inner write loop produces `i `, then the groups separated by single spaces |
| NavSection.EntryLineIsLine | trunk/source/io/sections/NavSection.cpp:296-304 | a written entry line holds no line break |
| NavSection.EntriesAt | trunk/source/io/sections/NavSection.cpp:111-152 | entries i … size−1 take one line each, entry k from the k-th line; the first error stops the read |
| NavSection.EntriesAtLines | trunk/source/io/sections/NavSection.cpp:111-152 | a successful read consumed exactly one line per entry, and line k held the entry of node i + k |
| NavSection.AdjacencyListAt | trunk/source/io/sections/NavSection.cpp:98-157 | on success, the section read the lines `AdjacencyList`, `{`, an integer size, one entry line per node and `}`; a non-integer size gives "The adjacency list size was not an integer" |
| NavSection.ReadAdjacencyList | trunk/source/io/sections/NavSection.cpp:98-157 | the stream method agrees with `AdjacencyListAt` on result and new position |
| NavSection.ReadEntries | trunk/source/io/sections/NavSection.cpp:111-152 | the entry loop agrees with `EntriesAt` from entry 0 |
| NavSection.ReadEntry | trunk/source/io/sections/NavSection.cpp:113-151 | one turn of the entry loop: either it ends the read with the loop's error, or the loop's outcome is unchanged with one more entry gathered |
| NavSection.EntryLines | trunk/source/io/sections/NavSection.cpp:294-305 | one written line per node, line k for node k and its edges |
| NavSection.WriteAdjacencyList | trunk/source/io/sections/NavSection.cpp:287-308 | the text is `AdjacencyList`, `{`, the size, the entry lines and `}`, each ended by a line break |
| NavSection.EntriesAtStep | trunk/source/io/sections/NavSection.cpp:111-152 | one entry line read, in front of the entries after it, is the read from that entry on |
| NavSection.EntriesCons | trunk/source/io/sections/NavSection.cpp:111-152 | an entry line that reads as `edges`, then lines that read as `rest`, read as `[edges] + rest` |
| NavSection.EntriesAtOfLines | trunk/source/io/sections/NavSection.cpp:111-152 | entry lines that each read make the entries read, and nothing more is consumed |
| NavSection.EntriesOfText | trunk/source/io/sections/NavSection.cpp:111-152 | written entry lines found at any position read back node by node and stop after the last |
| NavSection.WrittenEntriesRead | trunk/source/io/sections/NavSection.cpp:294-305 | each line `write_adjacency_list` writes reads back as its node's edges |
| NavSection.AdjacencyLinesAreLines | trunk/source/io/sections/NavSection.cpp:287-308 | no written line contains a line break, so the text splits back into exactly those lines |
| NavSection.EntriesBlockReads | trunk/source/io/sections/NavSection.cpp:111-152 | entry lines that each read, found anywhere, read together as their lists |
| NavSection.ListBlockReads | trunk/source/io/sections/NavSection.cpp:104-154 | a size line, entry lines that read, and `}`, found anywhere, read as the list |
| NavSection.AdjacencyBlockReads | trunk/source/io/sections/NavSection.cpp:98-157 | a written adjacency list, found anywhere, reads back with its lengths passed through text |
| NavSection.AdjacencyRoundTrip | trunk/source/io/sections/NavSection.cpp:287-308 | what `write_adjacency_list` writes, found anywhere in the input, `read_adjacency_list` reads back node by node with each list in its original order, and stops just after it |
| NavSection.AdjacencyOfText | trunk/source/io/sections/NavSection.cpp:98-157 | a size line, entries that read together, and `}` make the list those entries read as |
| NavSection.AdjacencyFrameOfText | trunk/source/io/sections/NavSection.cpp:289-307 | where the head lines, the entry lines and the closing brace of a written list lie |
| NavSection.AdjacencyListAtOf | trunk/source/io/sections/NavSection.cpp:98-157 | the fixed lines around n entries that read as `adj` make the list `adj` |
| NavMeshText.UntilCloseAt | trunk/source/io/sections/NavSection.cpp:176-181 | a `}`-ended block read, by the first line `getline` yields: `}` ends it, and any other line is parsed and followed by the rest of the block |
| NavMeshText.UntilCloseStep | trunk/source/io/sections/NavSection.cpp:176-181 | one parsed line that is not `}`, in front of the rest of the block, is the block read |
| NavMeshText.UntilCloseMeaning | trunk/source/io/sections/NavSection.cpp:176-181 | a successful block read parsed every line up to the first `}`, in order, and consumed the `}` |
| NavMeshText.UntilCloseOfBlock | trunk/source/io/sections/NavSection.cpp:176-181 | a closed block of lines reads as exactly its values |
| NavMeshText.BlockOfText | trunk/source/io/sections/NavSection.cpp:323-328 | written lines other than `}` that parse as `vs`, then `}`, form a closed block |
| NavMeshText.LinksAtMeaning | trunk/source/io/sections/NavSection.cpp:207-242 | a successful list read takes its links from the words from k on, in order, and the next word is `]`; a failed read fails with the polygon's bad-link message |
| NavMeshText.LinksAtOfWords | trunk/source/io/sections/NavSection.cpp:207-242 | links written out and closed by `]` read back as exactly those links |
| NavMeshText.PolygonAtMeaning | trunk/source/io/sections/NavSection.cpp:194-244 | a polygon line reads as p exactly when two ints can be extracted from its front the way `>>` extracts them (white space skipped, a number may run into what follows), the second is p's collision index, and the words left are `[ ins… ] [ outs… ]` for p |
| NavMeshText.GluedListsLine | trunk/source/io/sections/NavSection.cpp:199-201 | a line whose first list is glued to the collision index, such as `0 5[ ] [ ]`, still reads as the polygon |
| NavMeshText.GluedSignLine | trunk/source/io/sections/NavSection.cpp:199-201 | a line whose negative collision index is glued to the index, such as `3-4 [ ] [ ]`, reads with index 3 and collision index -4 |
| NavMeshText.UnclosedLinksNeverEnd | trunk/source/io/sections/NavSection.cpp:208-222 | with the line used up before its `]` and an int as the word last extracted, every further pass of the loop as written adds that int again |
| NavMeshText.UnclosedLinksLine | trunk/source/io/sections/NavSection.cpp:199-222 | for a line `i c [ v` such as `0 0 [ 5`, the two ints are extracted, the words left are `[ v`, the loop as written is still reading after any number of passes, adding v each time, while the corrected reader reports "Bad in link for nav polygon i" |
| NavMeshText.UnclosedLoop | trunk/source/io/sections/NavSection.cpp:208-222 | on the words `[ v`, the loop as written has read v once per pass after any number of passes |
| NavMeshText.UnclosedPolygon | trunk/source/io/sections/NavSection.cpp:199-222 | a line whose words after the two ints are `[` and a link is reported as a bad in-link by the corrected reader |
| NavMeshText.CorrectedLinksAgree | trunk/source/io/sections/NavSection.cpp:208-242 | wherever the loop as written stops, the corrected reader gives the same links and next word, or the same error |
| NavMeshText.ReadLinks | trunk/source/io/sections/NavSection.cpp:208-222 | the corrected link loop computes exactly `LinksAt` |
| NavMeshText.ParsePolygonLine | trunk/source/io/sections/NavSection.cpp:191-244 | the polygon loop body computes exactly `PolygonAt`: the two ints extracted as `>>` extracts them, the "Expected [ …" checks on the words left, then the in and out links |
| NavMeshText.PolygonLineJoin | trunk/source/io/sections/NavSection.cpp:337-351 | a written polygon line is its words joined by single spaces |
| NavMeshText.PolygonRoundTrip | trunk/source/io/sections/NavSection.cpp:337-351 | a written polygon line reads back as the polygon: its collision index, in links and out links, in order |
| NavMeshText.LinkListsOf | trunk/source/io/sections/NavSection.cpp:203-244 | two bracketed lists of a polygon's links denote its link lists |
| NavMeshText.PolygonHeadRead | trunk/source/io/sections/NavSection.cpp:199-201 | the index and collision index written in front of a polygon's lists are extracted whole, leaving the rest of the line |
| NavMeshText.ListsTailRead | trunk/source/io/sections/NavSection.cpp:203-244 | what follows the two ints of a written line denotes the polygon's link lists |
| NavMeshText.BracketedParts | trunk/source/io/sections/NavSection.cpp:337-351 | where the parts of `[ ins… ] [ outs… ]` lie among its words |
| NavMeshText.WritePolygonLine | trunk/source/io/sections/NavSection.cpp:337-351 | the line of polygon i, written piece by piece, is `i col [ ins… ] [ outs… ]` |
| NavMeshText.WriteLinks | trunk/source/io/sections/NavSection.cpp:340-350 | a list of links, each followed by a space, written after `head` |
| NavMeshText.PolygonLineIsLine | trunk/source/io/sections/NavSection.cpp:337-351 | a polygon line holds no line break and is never `}` |
| NavMeshText.MeshAtMeaning | trunk/source/io/sections/NavSection.cpp:162-250 | a mesh block reads as m exactly when its lines are those of m's block |
| NavMeshText.MeshLinksLines | trunk/source/io/sections/NavSection.cpp:164-181 | a mesh block that reads starts with `Mesh`, `{`, `Links`, `{`, then its links up to their `}` |
| NavMeshText.MeshLinksOfLines | trunk/source/io/sections/NavSection.cpp:164-181 | conversely, that head and those link lines read as the links |
| NavMeshText.LinkLines | trunk/source/io/sections/NavSection.cpp:321-327 | one written line per nav link, each link's own output |
| NavMeshText.PolygonLines | trunk/source/io/sections/NavSection.cpp:333-353 | one written line per polygon, polygon k with index k |
| NavMeshText.WriteNavMesh | trunk/source/io/sections/NavSection.cpp:313-357 | the text is `Mesh {`, `Links {`, the link lines, `}`, `Polygons {`, the polygon lines, `}`, `}` |
| NavMeshText.WriteLinkLines | trunk/source/io/sections/NavSection.cpp:321-327 | the link loop writes each link's output, then a line break, in order |
| NavMeshText.WritePolygonLines | trunk/source/io/sections/NavSection.cpp:333-353 | the polygon loop writes each polygon's line, then a line break, in order |
| NavMeshText.MeshText | trunk/source/io/sections/NavSection.cpp:313-357 | the text of a mesh block, piece by piece, is its lines |
| NavMeshText.MeshFixedText | trunk/source/io/sections/NavSection.cpp:315-356 | the fixed lines around the links and the polygons |
| NavMeshText.UntilBlockReads | trunk/source/io/sections/NavSection.cpp:176-181 | lines other than `}` that parse, then `}`, found anywhere, read as their values |
| NavMeshText.PolygonsBlockReads | trunk/source/io/sections/NavSection.cpp:184-247 | `Polygons`, `{`, polygon lines that read, `}` and the final `}`, found anywhere, read as the mesh |
| NavMeshText.MeshTextReads | trunk/source/io/sections/NavSection.cpp:162-250 | the mesh head, a link block that reads, and a polygon part that reads, found anywhere, read as the mesh |
| NavMeshText.MeshParts | trunk/source/io/sections/NavSection.cpp:313-357 | where the parts of a written mesh block lie |
| NavMeshText.MeshAtOf | trunk/source/io/sections/NavSection.cpp:162-250 | the frame of `read_navmesh` around links and polygons that read |
| NavMeshText.MeshLinesShape | trunk/source/io/sections/NavSection.cpp:313-357 | the lines of a mesh block, grouped as the reader reads them |
| NavMeshText.MeshBlockReads | trunk/source/io/sections/NavSection.cpp:162-250 | a written mesh block, found anywhere, reads back as the mesh, stopping right after it |
| NavMeshText.MeshRoundTrip | trunk/source/io/sections/NavSection.cpp:313-357 | `read_navmesh` reads back what `write_navmesh` wrote: the links (through the link codec), and every polygon's collision index and link lists, in order |
| NavMeshText.MeshLinesAreLines | trunk/source/io/sections/NavSection.cpp:313-357 | every line of a written mesh block is one line of text |
| NavMeshText.ReadLinkBlock | trunk/source/io/sections/NavSection.cpp:173-181 | the link loop agrees with the `}`-ended block read of the link factory |
| NavMeshText.ReadPolygonBlock | trunk/source/io/sections/NavSection.cpp:187-245 | the polygon loop agrees with the `}`-ended block read of polygon lines |
| NavMeshText.ReadNavMesh | trunk/source/io/sections/NavSection.cpp:162-250 | the stream method agrees with the mesh block read on result and new position |
| NavMeshText.ReadMeshPolygons | trunk/source/io/sections/NavSection.cpp:184-249 | the rest of `read_navmesh` after the links agrees with the polygon part read |
| NavSectionFile.DatasetsAt | trunk/source/io/sections/NavSection.cpp:45-57 | blocks i … count−1 read one after another; none when count ≤ i |
| NavSectionFile.NavAt | trunk/source/io/sections/NavSection.cpp:32-62 | `Nav`, `{`, an int count ("The navigation dataset count was not an integer" otherwise), that many `Dataset { … }` blocks, `}`; a negative count reads none |
| NavSectionFile.WriteDataset | trunk/source/io/sections/NavSection.cpp:81-88 | a dataset block is `Dataset`, `{`, the mesh, the adjacency list, the path table and `}` |
| NavSectionFile.SaveNav | trunk/source/io/sections/NavSection.cpp:71-92 | the text is `Nav`, `{`, the count and each dataset block in order, then `}` |
| NavSectionFile.ReadDataset | trunk/source/io/sections/NavSection.cpp:47-56 | one dataset block: the bracket lines are checked, and the mesh, adjacency list and path table are read in order |
| NavSectionFile.ReadDatasets | trunk/source/io/sections/NavSection.cpp:45-57 | the dataset loop agrees with `DatasetsAt` |
| NavSectionFile.LoadNav | trunk/source/io/sections/NavSection.cpp:32-62 | the stream method agrees with `NavAt` on result and new position |
| NavSectionFile.RereadDatasetsExact | trunk/source/io/sections/NavSection.cpp:71-92 | with an exact number format, saving and loading changes no dataset |
| NavSectionFile.DatasetAtOf | trunk/source/io/sections/NavSection.cpp:47-56 | the frame of a dataset block around a mesh, a list and a table that read |
| NavSectionFile.DatasetOfBlocks | trunk/source/io/sections/NavSection.cpp:47-56 | blocks that each read back, framed as a dataset block, read back as their dataset |
| NavSectionFile.DatasetParts | trunk/source/io/sections/NavSection.cpp:81-88 | where the parts of a written dataset block lie |
| NavSectionFile.DatasetBlockReads | trunk/source/io/sections/NavSection.cpp:47-56 | a saved dataset block, found anywhere, reads back as the dataset |
| NavSectionFile.DatasetRoundTrip | trunk/source/io/sections/NavSection.cpp:81-88 | a saved dataset block reads back as the same dataset and stops right after it |
| NavSectionFile.DatasetsOfText | trunk/source/io/sections/NavSection.cpp:45-57 | blocks written one after another read, from the i-th of `count` on, as their values |
| NavSectionFile.FirstBlockRead | trunk/source/io/sections/NavSection.cpp:45-57 | the first of consecutive written blocks reads as its value and the rest follow it |
| NavSectionFile.DatasetsAtStep | trunk/source/io/sections/NavSection.cpp:45-57 | one block read by the dataset loop, in front of the rest of the loop |
| NavSectionFile.NavAtOf | trunk/source/io/sections/NavSection.cpp:32-62 | the frame of the section around n datasets that read as `vs` |
| NavSectionFile.DatasetsBlockReads | trunk/source/io/sections/NavSection.cpp:45-57 | consecutive written blocks, each of which reads, read together as their values |
| NavSectionFile.NavOfText | trunk/source/io/sections/NavSection.cpp:40-59 | a count line, datasets that read together, and `}` make those datasets |
| NavSectionFile.NavOfBody | trunk/source/io/sections/NavSection.cpp:32-62 | a section whose count line and datasets read back, reads back |
| NavSectionFile.NavParts | trunk/source/io/sections/NavSection.cpp:71-92 | where the parts of a written section lie |
| NavSectionFile.WrittenDatasetsRead | trunk/source/io/sections/NavSection.cpp:79-89 | each dataset block `save` writes reads back as its dataset |
| NavSectionFile.NavLinesAreLines | trunk/source/io/sections/NavSection.cpp:71-92 | every line `save` writes is one line of text |
| NavSectionFile.NavTextReads | trunk/source/io/sections/NavSection.cpp:32-62 | written blocks behind a count line and between `Nav {` and `}` read as their values |
| NavSectionFile.NavBlockReads | trunk/source/io/sections/NavSection.cpp:32-62 | a saved section, found anywhere, reads back as the saved datasets |
| NavSectionFile.NavRoundTrip | trunk/source/io/sections/NavSection.cpp:71-92 | what `save` writes, found anywhere in the input, `load` reads back as the same datasets in order (edge lengths through their text form), stopping right after it |
| NavSectionFile.SaveThenLoad | trunk/source/io/sections/NavSection.cpp:32-92 | the text `SaveNav` produces, followed by anything, loads back from its first line as the saved datasets |
| NavSectionFile.ReadOfText | trunk/source/io/sections/NavSection.cpp:32-62 | lines found anywhere that read as v, read as v from the start of their own text |
| Mef2Input.SkipAt | trunk/source/tools/mef2input/main.cpp:73-84 | at end of input, "Unexpected EOF whilst trying to skip section"; a first line other than `{` is consumed alone |
| Mef2Input.SkipFromMeaning | trunk/source/tools/mef2input/main.cpp:77-83 | the do-while stops at the first position where the bracket count since the start is ≤ 0, or fails with the EOF error exactly when there is none |
| Mef2Input.SkipMeaning | trunk/source/tools/mef2input/main.cpp:73-84 | `skip_section` stops exactly where the +1 per `{` / −1 per `}` count first drops to ≤ 0, and fails exactly when it never does |
| Mef2Input.SkipNested | trunk/source/tools/mef2input/main.cpp:73-84 | a section `{`, a nested balanced body, `}` is skipped exactly |
| Mef2Input.TaggedLine | trunk/source/tools/mef2input/main.cpp:94-116 | `tag`, a space and non-empty text pass the prefix and length test, and the text after the tag's space is that text |
| Mef2Input.ConvertVertex | trunk/source/tools/mef2input/main.cpp:125-128 | a vertex is scaled by 1/32 (times 32 gives it back) and textured from its unscaled position |
| Mef2Input.ConvertPolygon | trunk/source/tools/mef2input/main.cpp:119-130 | the vertex loop keeps the vertex count, the order and the texture, and scales every vertex by 1/32 |
| Mef2Input.FacesAt | trunk/source/tools/mef2input/main.cpp:110-131 | n polygon lines give n faces, one line each; a count below 1 reads none |
| Mef2Input.BrushFacesAt | trunk/source/tools/mef2input/main.cpp:109-135 | the faces, then `}`, give a brush with the bounds and that many faces |
| Mef2Input.BrushCountAt | trunk/source/tools/mef2input/main.cpp:101-135 | after the bounds, a `PolyCount` line with an integer at offset 10, then the faces and `}` |
| Mef2Input.BrushBoundsAt | trunk/source/tools/mef2input/main.cpp:93-135 | after `{`, a `Bounds` line of length ≥ 8 read from offset 7, then the rest of the brush |
| Mef2Input.PolyBrushAt | trunk/source/tools/mef2input/main.cpp:86-136 | a successful read consumed the faces plus four lines; EOF gives the EOF error; a first line other than `{` gives "PolyhedralBrush: Expected {" |
| Mef2Input.FacesOfText | trunk/source/tools/mef2input/main.cpp:110-131 | polygon lines are read as their faces, in order |
| Mef2Input.BrushHead | trunk/source/tools/mef2input/main.cpp:90-106 | the lines in front of the polygons are three: `{`, the bounds line and the count line |
| Mef2Input.BrushHeadOfText | trunk/source/tools/mef2input/main.cpp:90-106 | that head reads as the bounds and the count n |
| Mef2Input.BrushCloseOfText | trunk/source/tools/mef2input/main.cpp:132-135 | faces read up to a closing brace give the brush, ending just after the brace |
| Mef2Input.BrushTailOfText | trunk/source/tools/mef2input/main.cpp:110-135 | the polygon lines and the closing brace give the brush |
| Mef2Input.PolyBrushOfText | trunk/source/tools/mef2input/main.cpp:86-136 | a well-formed PolyhedralBrush block reads as the brush with its bounds and one face per polygon line, in order, stopping right after it |
| Mef2Input.LightAt | trunk/source/tools/mef2input/main.cpp:159-174 | `{`, a Position field scaled by 1/32, a Colour field, `}`; each brace line is checked |
| Mef2Input.LightOfText | trunk/source/tools/mef2input/main.cpp:159-174 | a light block with readable fields reads as one light at the scaled position with that colour |
| Mef2Input.CompositeAt | trunk/source/tools/mef2input/main.cpp:138-157 | a composite is `{`, then its subsections up to `}` |
| Mef2Input.CompositeItemsAt | trunk/source/tools/mef2input/main.cpp:144-156 | nested composites and PolyhedralBrushes add their brushes in file order; any other subsection is skipped |
| Mef2Input.UnknownSubsectionSkipped | trunk/source/tools/mef2input/main.cpp:151-155 | an unknown subsection with a nested body is skipped, and the composite reads on after it, adding nothing |
| Mef2Input.PolyBrushSubsection | trunk/source/tools/mef2input/main.cpp:150 | a PolyhedralBrush subsection contributes its brush ahead of those after it |
| Mef2Input.ConvertAt | trunk/source/tools/mef2input/main.cpp:185-204 | `MEF 3` ("Bad MEF ID or unexpected file version" otherwise), `Textures` ("Textures section is missing" otherwise), a skipped section, then the sections to end of input |
| Mef2Input.ConvertAfterTextures | trunk/source/tools/mef2input/main.cpp:187-204 | after the ID line and a skipped texture section, the file reads as its sections |
| Mef2Input.OneLightFile | trunk/source/tools/mef2input/main.cpp:187-204 | a file with a single light section after the textures yields that light alone and no brush |
| Mef2Input.SkipSection | trunk/source/tools/mef2input/main.cpp:73-84 | the stream method agrees with `SkipAt` |
| Mef2Input.ReadFaces | trunk/source/tools/mef2input/main.cpp:110-131 | the polygon loop agrees with `FacesAt` |
| Mef2Input.ReadPolyhedralBrush | trunk/source/tools/mef2input/main.cpp:86-136 | appends exactly the brush `PolyBrushAt` reads to the brushes |
| Mef2Input.ReadLightBrush | trunk/source/tools/mef2input/main.cpp:159-174 | appends exactly the light `LightAt` reads to the lights |
| Mef2Input.ReadCompositeItem | trunk/source/tools/mef2input/main.cpp:146-155 | one subsection appends its brushes, or is skipped |
| Mef2Input.ReadComposite | trunk/source/tools/mef2input/main.cpp:138-157 | appends the composite's brushes, as `CompositeAt` reads them, in file order |
| Mef2Input.SectionStep | trunk/source/tools/mef2input/main.cpp:194-204 | a section adds its brushes or light ahead of those of the sections after it |
| Mef2Input.ReadSection | trunk/source/tools/mef2input/main.cpp:196-203 | one top-level section appends its brushes or its light, or is skipped |
| Mef2Input.ReadSections | trunk/source/tools/mef2input/main.cpp:194-204 | the section loop collects the brushes and lights of all the sections, in file order |
| Mef2Input.RunConverter | trunk/source/tools/mef2input/main.cpp:176-204 | the stream method agrees with `ConvertAt`: the brushes and lights of the file, in file order |
| MapFileMef.LoadTexture | MapEditor/trunk/Maps/MapFileMEF.java:249-252 | a texture whose file exists is registered under its name; a missing file registers nothing and loading goes on |
| MapFileMef.TextureManager.UnloadAll | MapEditor/trunk/Maps/MapFileMEF.java:237 | the registry becomes empty |
| MapFileMef.TextureManager.Load | MapEditor/trunk/Maps/MapFileMEF.java:249-252 | the registry becomes `LoadTexture` of the old one, and the result says whether the file was found |
| MapFileMef.TextureLinesAt | MapEditor/trunk/Maps/MapFileMEF.java:241-253 | texture lines up to the first `}` or end of input; a trimmed line with no space gives "Error reading texture details"; each line registers `name` → `filename`, split at its first space |
| MapFileMef.TextureSegmentAt | MapEditor/trunk/Maps/MapFileMEF.java:235-254 | all textures are unloaded first, the opening-brace line is consumed unchecked, then the texture lines are read |
| MapFileMef.TextureLinesEnd | MapEditor/trunk/Maps/MapFileMEF.java:242-244 | the segment stops at the first `}` line, which is consumed, or at the end of input |
| MapFileMef.TextureLineWithoutSpace | MapEditor/trunk/Maps/MapFileMEF.java:246-248 | a texture line with no space after trimming ends the segment with the error |
| MapFileMef.MissingTextureSkipped | MapEditor/trunk/Maps/MapFileMEF.java:249-252 | a texture whose file is missing is skipped: the rest reads as if the line were absent |
| MapFileMef.Prepended | MapEditor/trunk/Maps/MapFileMEF.java:200-212 | brushes loaded so far, in front of what the rest of the loop loads |
| MapFileMef.Version | MapEditor/trunk/Maps/MapFileMEF.java:29-34 | exactly `MEF 0` … `MEF 3` give versions 0 … 3 |
| MapFileMef.LoadAt | MapEditor/trunk/Maps/MapFileMEF.java:24-41 | the header line picks the version's loop; any other header gives "Invalid file type" |
| MapFileMef.TexturesIsAClassInVersion0 | MapEditor/trunk/Maps/MapFileMEF.java:74-107 | in version 0 a `Textures` line names the brush class to load next |
| MapFileMef.TexturesReplaced | MapEditor/trunk/Maps/MapFileMEF.java:109-233 | from version 1 on, a `Textures` line starts a segment replacing every texture loaded before |
| MapFileMef.ReadTextureSegment | MapEditor/trunk/Maps/MapFileMEF.java:235-254 | the stream method agrees with `TextureSegmentAt` on result, position and the texture manager's new registry |
| MapFileMef.LoadStepCombine | MapEditor/trunk/Maps/MapFileMEF.java:200-211 | the outcome of one pass of the loop, ahead of the rest, is the loop's outcome |
| MapFileMef.LoadStep | MapEditor/trunk/Maps/MapFileMEF.java:202-211 | a `Textures` line (in versions 1–3) reads a texture segment; any other line appends one brush of that class |
| MapFileMef.LoadBrushes | MapEditor/trunk/Maps/MapFileMEF.java:200-212 | the loop agrees with the version's load: brushes in file order, or the first error |
| MapFileMef.Load | MapEditor/trunk/Maps/MapFileMEF.java:24-41 | the stream method agrees with `LoadAt` on the brushes, the error and the texture registry |
| MapFileMef.SaveMef3 | MapEditor/trunk/Maps/MapFileMEF.java:256-281 | the text is `MEF 3`, `Textures`, `{`, one `name filename` line per texture, `}` without a line end, then each brush's text in order |
| MapFileMef.SaveTextures | MapEditor/trunk/Maps/MapFileMEF.java:263-270 | the header and the texture lines, in the manager's order |
| MapFileMef.SaveBrushes | MapEditor/trunk/Maps/MapFileMEF.java:271-274 | each brush's `save_MEF3` text, in map order |
| MapFileMef.BrushStep | MapEditor/trunk/Maps/MapFileMEF.java:273 | one brush's text: a line end, then its lines, the last without a line end |
| MapFileMef.PrintLines | MapEditor/trunk/Maps/MapFileMEF.java:273 | lines printed one by one, each followed by a line end |
| MapFileMef.TexturesRead | MapEditor/trunk/Maps/MapFileMEF.java:241-253 | texture lines as saved, then `}`, register the textures in order |
| MapFileMef.BrushThenRest | MapEditor/trunk/Maps/MapFileMEF.java:200-211 | a saved brush followed by lines that load as `rest` loads as that brush, then `rest` |
| MapFileMef.BrushesRead | MapEditor/trunk/Maps/MapFileMEF.java:200-211 | brushes k, k+1, … as saved, up to the end of input, load back as themselves in order |
| MapFileMef.BrushesSplit | MapEditor/trunk/Maps/MapFileMEF.java:271-274 | where brush k's lines end, the lines of the brushes after it start |
| MapFileMef.SaveTextLines | MapEditor/trunk/Maps/MapFileMEF.java:256-281 | the saved text is the saved lines separated by line ends |
| MapFileMef.LoadOfSave | MapEditor/trunk/Maps/MapFileMEF.java:193-281 | loading what `save_MEF3` wrote gives back the brushes in order and registers the saved textures whose files exist, in order, whatever was loaded before |
| MapFileMef.SavedTextLines | MapEditor/trunk/Maps/MapFileMEF.java:256-281 | the saved text reads back line by line as the saved lines |
| MapFileMef.SavedLoop | MapEditor/trunk/Maps/MapFileMEF.java:200-212 | after the version line, the texture segment and then the brushes are read |
| MapFileMef.SavedBrushesRead | MapEditor/trunk/Maps/MapFileMEF.java:200-212 | the brushes after the texture segment read back in order |
| MapFileMef.SavedSegment | MapEditor/trunk/Maps/MapFileMEF.java:235-254 | the texture segment of a saved file reads back as the saved textures |
| MapFileMef.RegisteredAll | MapEditor/trunk/Maps/MapFileMEF.java:249-252 | with every file present and no name repeated, exactly the saved textures are registered |
| MapFileMef.RegisteredKeeps | MapEditor/trunk/Maps/MapFileMEF.java:249-252 | a name none of the textures uses keeps its entry |
| Brushes.BoundingBoxAround | MapEditor/trunk/Brushes/LightBrush.java:243-248 | the box is position ∓ 16 on every axis, so its centre is the position |
| Brushes.CentreOfTranslated | MapEditor/trunk/Brushes/LightBrush.java:234-240 | translating a box translates its centre |
| Brushes.TranslatedBack | MapEditor/trunk/Brushes/TranslatableBrush.java:65-82 | translating by an offset and then by its negation gives the box back |
| Brushes.Level8 | MapEditor/trunk/Brushes/LightBrush.java:53 | a colour component stored in 8 bits, `(int)(x * 255 + 0.5)`, lies in 0 … 255 for x in [0, 1] |
| Brushes.Quantized | MapEditor/trunk/Brushes/LightBrush.java:53 | each component is rounded to the nearest multiple of 1/255 |
| Brushes.Level8Close | MapEditor/trunk/Brushes/LightBrush.java:53 | rounding moves a component by at most half a step |
| Brushes.Level8OfStep | MapEditor/trunk/Brushes/LightBrush.java:53 | a component that is already a multiple of 1/255 is kept |
| Brushes.QuantizedIdempotent | MapEditor/trunk/Brushes/LightBrush.java:48-57 | copying a copy changes the colour no further |
| Brushes.LightBrush.Make | MapEditor/trunk/Brushes/LightBrush.java:33-40 | for a colour with components in [0, 1], as every `Color` has: the box around the position, the colour and ghost flag given; a new brush starts INITIAL, any other one IDLE; the brush keeps the colour invariant `Valid` |
| Brushes.LightBrush.constructor | MapEditor/trunk/Brushes/LightBrush.java:42-45 | a white ghost in the INITIAL state, boxed around the position, satisfying `Valid` |
| Brushes.LightBrush.Internal | MapEditor/trunk/Brushes/LightBrush.java:28-31 | an IDLE brush for internal use, with the box and in-range colour given, satisfying `Valid` |
| Brushes.LightBrush.IsCopyable | MapEditor/trunk/Brushes/LightBrush.java:95-103 | copyable exactly when not a ghost |
| Brushes.LightBrush.Copy | MapEditor/trunk/Brushes/LightBrush.java:48-57 | a fresh brush that is not a ghost, is IDLE, and has an equal box of its own and the colour as 8-bit components, so it satisfies `Valid` too; the original is unchanged |
| Brushes.LightBrush.BeginTransform | MapEditor/trunk/Brushes/TranslatableBrush.java:112-115 | the current box is cached; nothing else changes |
| Brushes.LightBrush.Translate | MapEditor/trunk/Brushes/LightBrush.java:234-240 | the box becomes the cached box moved by t, so repeated calls do not add up |
| Brushes.LightBrush.ExecuteTranslation | MapEditor/trunk/Brushes/TranslatableBrush.java:70-75 | the command's execute moves the box by the offset |
| Brushes.LightBrush.UndoTranslation | MapEditor/trunk/Brushes/TranslatableBrush.java:77-82 | the command's undo moves the box by the negated offset |
| Brushes.LightBrush.SaveMef3 | MapEditor/trunk/Brushes/LightBrush.java:201-215 | a line end, `LightBrush`, `{`, `Position = ( x y z )` of the box centre, `Colour = [ r g b ]`, and `}` without a line end |
| Brushes.TranslationCommandOf | MapEditor/trunk/Brushes/TranslatableBrush.java:63-84 | the command is named "Translation"; its undo moves by exactly the negated offset |
| Brushes.UndoRestores | MapEditor/trunk/Brushes/TranslatableBrush.java:65-82 | executing a translation command and then undoing it restores the box |
| Brushes.NullTransformation.constructor | MapEditor/trunk/Brushes/TranslatableBrush.java:216-220 | the brush enters TRANSFORMING; its box, cached box, colour and ghost flag are unchanged |
| Brushes.TranslationTransformation.constructor | MapEditor/trunk/Brushes/TranslatableBrush.java:191-194 | the brush enters TRANSFORMING and caches its box; the nearest corner handle is the fixed corner and the anchor, the drag offset is p − corner, the offset is zero |
| Brushes.TranslationTransformation.Transform | MapEditor/trunk/Brushes/TranslatableBrush.java:282-307 | the new corner is p − drag offset (snapped when the option is set); the anchor moves there and the brush is translated from its cached box by new corner − fixed corner |
| Brushes.TranslationTransformation.ExecuteCommand | MapEditor/trunk/Brushes/TranslatableBrush.java:251-258 | a zero offset does nothing; otherwise the brush is reset to its cached box and the translation command is run, applying the offset exactly once |
| Brushes.ResetIsCached | MapEditor/trunk/Brushes/TranslatableBrush.java:255 | translating by zero gives the cached box itself |
| Brushes.Triple | MapEditor/trunk/Brushes/LightBrush.java:120-122 | the numbers are tokens 3, 4 and 5 |
| Brushes.FieldAt | MapEditor/trunk/Brushes/LightBrush.java:114-119 | a field line must split on spaces into exactly 7 tokens whose first is the field name, otherwise its "… not found" error |
| Brushes.ColourOf | MapEditor/trunk/Brushes/LightBrush.java:131-133 | components outside [0, 1] are refused |
| Brushes.LightAt | MapEditor/trunk/Brushes/LightBrush.java:105-139 | the brace lines are read unchecked; the Position line (doubles) and the Colour line (floats) are checked with "Light position not found" and "Light colour not found" |
| Brushes.LoadMef3 | MapEditor/trunk/Brushes/LightBrush.java:105-139 | agrees with `LightAt`; a fresh brush that is not a ghost and is IDLE, boxed around the position read, satisfying `Valid` |
| Brushes.FieldRead | MapEditor/trunk/Brushes/LightBrush.java:207-212 | a field line as written splits back into its seven tokens and reads back as its numbers |
| Brushes.LightBlockReads | MapEditor/trunk/Brushes/LightBrush.java:201-215 | the block `save_MEF3` writes, `load_MEF3` reads back as the same centre and colour |
| Brushes.LightMapRoundTrip | MapEditor/trunk/Maps/MapFileMEF.java:256-281 | a map of lights saved by `save_MEF3` loads back as the same lights, in order, with the saved textures registered |
| MapCommands.IssuedAppend | MapEditor/trunk/Maps/MapCommands.java:30-35 | the commands for two runs of brushes are those of the first, then those of the second |
| MapCommands.IssuedEmpty | MapEditor/trunk/Maps/MapCommands.java:36-37 | no command is issued exactly when the functor gives none for every brush |
| MapCommands.IssuedFrom | MapEditor/trunk/Maps/MapCommands.java:30-35 | every command issued is the functor's command for some brush |
| MapCommands.ForAllBrushes | MapEditor/trunk/Maps/MapCommands.java:28-38 | none (null) exactly when no brush gives a command; otherwise one sequence command with the description, holding the non-null commands in brush order |
| MapCommands.TranslationsIssued | MapEditor/trunk/Maps/MapCommands.java:52-61 | translating a map issues, for each resizable brush in order, its translation by the offset |
| MapCommands.TranslateMap | MapEditor/trunk/Maps/MapCommands.java:48-63 | one "Map Translation" command translating every resizable brush by the offset, or none when no brush is resizable |
| HbspArgs.HintsOf | trunk/source/tools/hbsp/main.cpp:64 | no hint file exactly for `nohints`, otherwise the name itself |
| HbspArgs.ParseArgs | trunk/source/tools/hbsp/main.cpp:74-96 | succeeds exactly for 5 or 6 arguments, a sixth starting with `-w` whose rest reads as a number, and a first argument `-r` or `-c`; every failure is the usage message; geometry, hints and output are args 2, 3 and 4 |
| HbspArgs.WeightOf | trunk/source/tools/hbsp/main.cpp:85-92 | 4 with five arguments; with six, the number after `-w`, or the usage message |
| HbspArgs.ParseCommandLine | trunk/source/tools/hbsp/main.cpp:74-96 | every job is the parse of its own command line |
| Hexpand.ParseArgs | trunk/source/tools/hexpand/main.cpp:94-96 | exactly two arguments after the program name, or the usage message |
| Hexpand.OutputStem | trunk/source/tools/hexpand/main.cpp:65-68 | the input up to its first '.' (all of it without one), then '-' |
| Hexpand.StemOfExtended | trunk/source/tools/hexpand/main.cpp:65-68 | the stem of a name without '.' followed by an extension is the name and '-' |
| Hexpand.OutputNamesDistinct | trunk/source/tools/hexpand/main.cpp:85-86 | different bounds indices give different output files |
| Hexpand.ExpandedBy | trunk/source/tools/hexpand/main.cpp:78-82 | one expanded brush per input brush, the j-th from the j-th |
| Hexpand.ExpandAll | trunk/source/tools/hexpand/main.cpp:78-82 | the fresh array holds `ExpandedBy` |
| Hexpand.RunExpander | trunk/source/tools/hexpand/main.cpp:72-88 | one output per bounds index 0 … boundsCount−1, named stem + i + `.ebr` and holding every input brush expanded by bounds i |
| Matrices.InverseFromColumns | trunk/source/math/matrices/RBTMatrix.cpp:129-171 | the inverse's block is the transpose and its translation is −dot(column, t) |
| Matrices.PointImageOfZeros | trunk/source/math/matrices/RBTMatrix.cpp:65-68 | the zero matrix sends every point to the origin |
| Matrices.ImageOfIdentity | trunk/source/math/matrices/RBTMatrix.cpp:57-63 | the identity fixes every point and every vector |
| Matrices.PointImageOfProduct | trunk/source/math/matrices/RBTMatrix.cpp:220-241 | (A * B).apply_to_point(p) = A.apply_to_point(B.apply_to_point(p)) |
| Matrices.Regroup | trunk/source/math/matrices/RBTMatrix.cpp:220-241 | a row of a product with b, applied to p, equals the row applied to b's image of p |
| Matrices.RowByEntries | trunk/source/math/matrices/RBTMatrix.cpp:220-241 | a row whose entries are row r times b is that row of the product |
| Matrices.VectorImageOfDifference | trunk/source/math/matrices/RBTMatrix.cpp:100-122 | `apply_to_vector` ignores the translation and maps a difference of points to the difference of their images |
| Matrices.PointImageAsVector | trunk/source/math/matrices/RBTMatrix.cpp:100-122 | `apply_to_point` is `apply_to_vector` plus the translation column |
| Matrices.InverseUndoes | trunk/source/math/matrices/RBTMatrix.cpp:129-171 | for an orthonormal 3x3 block, inverse().apply_to_point(M.apply_to_point(p)) = p |
| Matrices.RBTMatrix.constructor | trunk/source/math/matrices/RBTMatrix.cpp:17-20 | a fresh buffer of 12 zeros |
| Matrices.RBTMatrix.Copy | trunk/source/math/matrices/RBTMatrix.cpp:124-127 | a fresh buffer holding the same entries |
| Matrices.RBTMatrix.Zeros | trunk/source/math/matrices/RBTMatrix.cpp:65-68 | a fresh matrix with all 12 entries 0 |
| Matrices.RBTMatrix.Identity | trunk/source/math/matrices/RBTMatrix.cpp:57-63 | a fresh matrix with 1 at (0,0), (1,1), (2,2) and 0 elsewhere |
| Matrices.RBTMatrix.Entry | trunk/source/math/matrices/RBTMatrix.cpp:77-81 | the entry at row i, column j, for 0 ≤ i < 3 and 0 ≤ j < 4 only |
| Matrices.RBTMatrix.SetEntry | trunk/source/math/matrices/RBTMatrix.cpp:71-75 | entry (i, j) becomes x; no other entry changes |
| Matrices.RBTMatrix.ResetToZeros | trunk/source/math/matrices/RBTMatrix.cpp:183-188 | every entry becomes 0 |
| Matrices.RBTMatrix.AddScaled | trunk/source/math/matrices/RBTMatrix.cpp:84-91 | every entry gains `mat`'s entry times scale, also when `mat` is this matrix |
| Matrices.RBTMatrix.AddAssign | trunk/source/math/matrices/RBTMatrix.cpp:191-200 | every entry gains rhs's entry, also when rhs is this matrix |
| Matrices.RBTMatrix.ScaleBy | trunk/source/math/matrices/RBTMatrix.cpp:209-218 | every entry is multiplied by the scale |
| Matrices.RBTMatrix.ScaledCopy | trunk/source/math/matrices/RBTMatrix.cpp:243-255 | a fresh matrix with every entry scaled; the operand is unchanged |
| Matrices.RBTMatrix.Multiply | trunk/source/math/matrices/RBTMatrix.cpp:220-241 | a fresh matrix holding the affine product; its point image is A after B; the operands are unchanged |
| Matrices.RBTMatrix.ProductOf | trunk/source/math/matrices/RBTMatrix.cpp:220-241 | entries that sum row times column, plus lhs's translation in the last column, are the product |
| Matrices.RBTMatrix.AccumulateEntry | trunk/source/math/matrices/RBTMatrix.cpp:227-233 | the innermost loop adds row i of lhs times column j of rhs to entry (i, j); nothing else changes |
| Matrices.RBTMatrix.MultiplyAssign | trunk/source/math/matrices/RBTMatrix.cpp:202-207 | the result is a fresh matrix holding lhs * rhs; the matrix lhs pointed to is unchanged |
| Matrices.RBTMatrix.ApplyToPoint | trunk/source/math/matrices/RBTMatrix.cpp:100-107 | the block times p plus the translation column |
| Matrices.RBTMatrix.ApplyToVector | trunk/source/math/matrices/RBTMatrix.cpp:115-122 | the block times v, without the translation |
| Matrices.RBTMatrix.Inverse | trunk/source/math/matrices/RBTMatrix.cpp:129-171 | a fresh matrix with the transposed block and translation −dot(column, t); for an orthonormal block it undoes the transform |
| Matrices.RBTMatrix.Rep | trunk/source/math/matrices/RBTMatrix.cpp:173-181 | 16 values in column-major order, entry (i, j) at 4j + i, with bottom row 0, 0, 0, 1 |
| ModelRender.ModelGridColumns | trunk/source/level/objects/components/CmpModelRender.cpp:107-120 | the model matrix's columns are u, −n, v and p |
| ModelRender.ModelGridMaps | trunk/source/level/objects/components/CmpModelRender.cpp:107-120 | the matrix maps x to u, −y to n and z to v, and the origin to p |
| ModelRender.ConstructModelMatrix | trunk/source/level/objects/components/CmpModelRender.cpp:107-120 | a fresh matrix whose entries are the columns u, −n, v and p |
| ModelRender.LoadModelName | trunk/source/level/objects/components/CmpModelRender.cpp:21-25 | the model name is the text stored under `ModelName`, or an error |
| ModelRender.CmpModelRender.constructor | trunk/source/level/objects/components/CmpModelRender.cpp:16-19 | the given model name, not highlighted; `model_name` returns it |
| ModelRender.CmpModelRender.SetHighlights | trunk/source/level/objects/components/CmpModelRender.cpp:81-84 | only the highlight flag changes |
| ModelRender.CmpModelRender.Save | trunk/source/level/objects/components/CmpModelRender.cpp:74-79 | ("ModelRender", {ModelName: name}), which `load` reads back as the same name |
| ModelRender.Load | trunk/source/level/objects/components/CmpModelRender.cpp:21-25 | a fresh component with the loaded name, not highlighted; what `save` wrote loads back |
| LightmapGrid.BestAxisPlane | trunk/source/level/lighting/LightmapGrid.cpp:33-47 | the plane perpendicular to the largest |component|; ties go to YZ, then XZ |
| LightmapGrid.BestPlaneDropsLargest | trunk/source/level/lighting/LightmapGrid.cpp:33-47 | the dropped component has the largest magnitude |
| LightmapGrid.PlanarToReal | trunk/source/level/lighting/LightmapGrid.cpp:124-142 | puts 0 back in the dropped coordinate |
| LightmapGrid.ProjectPlanarToReal | trunk/source/level/lighting/LightmapGrid.cpp:124-164 | project(planar_to_real(v, a), a) = v for every axis plane |
| LightmapGrid.PlanarToRealProject | trunk/source/level/lighting/LightmapGrid.cpp:124-164 | a point on the axis plane is planar_to_real of its projection |
| LightmapGrid.LeastIsLeast | trunk/source/level/lighting/LightmapGrid.cpp:60-73 | the running minimum is a lower bound of the start and all values, and is one of them |
| LightmapGrid.GreatestIsGreatest | trunk/source/level/lighting/LightmapGrid.cpp:60-73 | the running maximum is an upper bound of the start and all values, and is one of them |
| LightmapGrid.VerticesInBox | trunk/source/level/lighting/LightmapGrid.cpp:60-73 | every projected vertex lies in the box |
| LightmapGrid.FindBox | trunk/source/level/lighting/LightmapGrid.cpp:60-73 | the first loop's min and max over all projected vertices, starting from INT_MAX and INT_MIN |
| LightmapGrid.LumelCount | trunk/source/level/lighting/LightmapGrid.cpp:79-92 | the count starts at 8 and doubles while the lumel size > 0.5 and the count < 64: it is in {8, 16, 32, 64} and either 64 or the lumel size ≤ 0.5, the smallest such |
| LightmapGrid.GridRow | trunk/source/level/lighting/LightmapGrid.cpp:99-104 | row i has lumelsX + 1 points, point j at (minX + j·lumelWidth, minY + i·lumelHeight) brought back into 3D |
| LightmapGrid.GridPointOnPlane | trunk/source/level/lighting/LightmapGrid.cpp:99-104 | every grid point lies on the axis plane and projects to its lattice position |
| LightmapGrid.Resized | trunk/source/level/lighting/LightmapGrid.cpp:95 | `resize(n)` keeps the first n rows and adds empty rows as needed |
| LightmapGrid.FractionInUnit | trunk/source/level/lighting/LightmapGrid.cpp:111-112 | a value in a non-empty interval is a fraction in [0, 1] of the way along it |
| LightmapGrid.CoordsInUnitSquare | trunk/source/level/lighting/LightmapGrid.cpp:107-114 | when width and height are positive, every vertex's lightmap coordinates lie in [0, 1] |
| LightmapGrid.LightmapGrid.MakePlanarGrid | trunk/source/level/lighting/LightmapGrid.cpp:57-115 | the grid gets lumelsY + 1 rows, row i extended by its lumelsX + 1 points; one coordinate pair per vertex, in order, ((x − minX)/width, (y − minY)/height), is appended to the caller's vector |
| LightmapGrid.LightmapGrid.FillGrid | trunk/source/level/lighting/LightmapGrid.cpp:95-105 | the grid loops: row i is its old contents followed by `GridRow` i |
| EntityManager.EntityManager.Save | trunk/source/level/entities/EntityManager.cpp:50-73 | `Entities {`, `DefinitionFile {` name `}`, `Instances {` the count, each entity's text in order, then `}` `}` |
| EntityManager.Create | trunk/source/level/entities/EntityManager.cpp:15-42 | succeeds exactly with one player; otherwise "The player must exist" or "There can only be one player in a level"; entity i gets id i up to the second player; simulables, visibles and yokeables (yoke type not "None") are kept in order; `player()` is the player |
| EntityManager.Visit | trunk/source/level/entities/EntityManager.cpp:22-39 | one loop turn: id i, the lists extended by entity i, and whether i is a second player |
| EntityManager.SortEntity | trunk/source/level/entities/EntityManager.cpp:25-32 | entity i is appended to each list it belongs in, and no other |
| EntityManager.SortStep | trunk/source/level/entities/EntityManager.cpp:22-39 | the gathered lists of a prefix extended by one entity are those of the longer prefix |
| EntityManager.SecondPlayer | trunk/source/level/entities/EntityManager.cpp:34-38 | once a second player is met, every longer prefix has at least two players |
| EntityManager.PlayersGrow | trunk/source/level/entities/EntityManager.cpp:34-38 | a longer prefix has at least as many players |
| EntityManager.SectionReadsBack | trunk/source/level/entities/EntityManager.cpp:50-73 | read back line by line, the section starts with its nine header lines, the file name fifth and the count, which reads back as a number, ninth |
| Components.LoadUsable | trunk/source/level/objects/components/CmpUsable.cpp:20-25 | Group, Hotspots and Script must be present as text, list and text |
| Components.CmpUsable.constructor | trunk/source/level/objects/components/CmpUsable.cpp:13-17 | the settings given; no hotspot has a position or orientation |
| Components.CmpUsable.VerifyHotspotName | trunk/source/level/objects/components/CmpUsable.cpp:86-92 | succeeds exactly for a listed hotspot, otherwise "No such hotspot: " + name |
| Components.CmpUsable.HotspotPosition | trunk/source/level/objects/components/CmpUsable.cpp:46-52 | the name error for an unknown hotspot; none until a position is set; otherwise the position set |
| Components.CmpUsable.HotspotOrientation | trunk/source/level/objects/components/CmpUsable.cpp:38-44 | the same for orientations |
| Components.CmpUsable.SetHotspotPosition | trunk/source/level/objects/components/CmpUsable.cpp:60-64 | an unknown name changes nothing and gives the name error; otherwise only that position changes and reads back as the value set; orientations never change |
| Components.CmpUsable.SetHotspotOrientation | trunk/source/level/objects/components/CmpUsable.cpp:54-58 | the same for orientations; positions never change |
| Components.CmpUsable.Save | trunk/source/level/objects/components/CmpUsable.cpp:66-73 | Group, Hotspots and Script under "Usable", which `load` reads back |
| Components.LoadCmpUsable | trunk/source/level/objects/components/CmpUsable.cpp:20-25 | a fresh component with the loaded settings and no hotspot set |
| Components.LoadOwnable | trunk/source/level/objects/components/CmpOwnable.cpp:16-19 | AttachPoint and Owner must be present as text and object id |
| Components.CmpOwnable.constructor | trunk/source/level/objects/components/CmpOwnable.cpp:11-13 | the attach point and owner given |
| Components.CmpOwnable.SetOwner | trunk/source/level/objects/components/CmpOwnable.cpp:45-48 | `owner()` becomes the argument; the attach point is unchanged |
| Components.CmpOwnable.ClearOwner | trunk/source/level/objects/components/CmpOwnable.cpp:27-30 | the owner becomes the default, invalid id; the attach point is unchanged |
| Components.CmpOwnable.Save | trunk/source/level/objects/components/CmpOwnable.cpp:37-43 | AttachPoint and Owner under "Ownable", which `load` reads back |
| Components.LoadCmpOwnable | trunk/source/level/objects/components/CmpOwnable.cpp:16-19 | a fresh component with the loaded settings |
| Components.ReadCollision | trunk/source/level/entities/CollisionComponent.h:24-28 | the AABBs field (an int array), then the Pose field (an int), and the fields after them |
| Components.CollisionComponent.constructor | trunk/source/level/entities/CollisionComponent.h:24-28 | the AABB indices and pose given, no transition |
| Components.CollisionComponent.Save | trunk/source/level/entities/CollisionComponent.h:47-51 | the AABBs field then the Pose field, which the stream constructor reads back before any later fields |
| Components.CollisionComponent.SetPose | trunk/source/level/entities/CollisionComponent.h:53-59 | the pose changes exactly when the new one is among the AABB indices; nothing else changes and no error is raised |
| Components.CollisionComponent.UpdateLastTransition | trunk/source/level/entities/CollisionComponent.h:61-64 | the stored transition is replaced; the pose and indices are unchanged |
| Components.LoadCollisionComponent | trunk/source/level/entities/CollisionComponent.h:24-28 | a fresh component from the fields `ReadCollision` reads |
| Physics.PhysicsObject.constructor | trunk/source/level/physics/PhysicsObject.cpp:11-14 | the given inverse mass, material, position and velocity; id −1, awake, no force, no previous position |
| Physics.PhysicsObject.ApplyForce | trunk/source/level/physics/PhysicsObject.cpp:21 | the force is added to the accumulated force, which stays the sum of the forces applied since the last clear; nothing else changes |
| Physics.PhysicsObject.CachePreviousPosition | trunk/source/level/physics/PhysicsObject.cpp:22 | the previous position becomes the current one; nothing else changes |
| Physics.PhysicsObject.ClearAccumulatedForce | trunk/source/level/physics/PhysicsObject.cpp:23 | the accumulated force becomes (0, 0, 0); nothing else changes |
| Physics.PhysicsObject.SetPosition | trunk/source/level/physics/PhysicsObject.cpp:29 | only the position changes |
| Physics.PhysicsObject.SetSleeping | trunk/source/level/physics/PhysicsObject.cpp:30 | only the sleeping flag changes |
| Physics.PhysicsObject.SetVelocity | trunk/source/level/physics/PhysicsObject.cpp:31 | only the velocity changes |
| Physics.PhysicsObject.SetId | trunk/source/level/physics/PhysicsObject.cpp:36 | only the id changes |
| Physics.SumSnoc | trunk/source/level/physics/PhysicsObject.cpp:21 | one more force adds to the sum |
| Physics.SumAppend | trunk/source/level/physics/PhysicsObject.cpp:21 | the sum of two runs of forces is the sum of their sums |
| Physics.PointA | trunk/source/level/physics/Contact.cpp:29-32 | relativePointA + objectA.position |
| Physics.PointB | trunk/source/level/physics/Contact.cpp:34-38 | relativePointB + objectB.position, or relativePointB for a contact with the world |
| Physics.PenetrationDepth | trunk/source/level/physics/Contact.cpp:24-27 | (pointB − pointA) · normal at the objects' current positions |
| Physics.DepthTranslationInvariant | trunk/source/level/physics/Contact.cpp:24-38 | moving both objects by the same vector leaves the depth unchanged |
| Physics.DepthOfMovingA | trunk/source/level/physics/Contact.cpp:24-38 | moving only the first object by t changes the depth by −t · normal |
| ContactResolver.ObjectManager.QueueForDestruction | trunk/source/level/contactresolvers/AbsorbProjectileContactResolver.cpp:41 | the object joins the end of the destruction queue |
| ContactResolver.SelectProjectile | trunk/source/level/contactresolvers/AbsorbProjectileContactResolver.cpp:25-35 | A is the projectile when its material matches, even if B's does too; otherwise B when its does; otherwise "Inappropriate contact resolver…" |
| ContactResolver.Destroys | trunk/source/level/contactresolvers/AbsorbProjectileContactResolver.cpp:38-42 | true exactly when the projectile has a firer that is invalid or differs from the other object |
| ContactResolver.AbsorbedBy | trunk/source/level/contactresolvers/AbsorbProjectileContactResolver.cpp:21-43 | an error exactly when neither object is a projectile; otherwise at most one object is queued |
| ContactResolver.OnlyProjectileQueued | trunk/source/level/contactresolvers/AbsorbProjectileContactResolver.cpp:38-42 | the object queued is always the projectile, never the other object |
| ContactResolver.FirerKeepsProjectile | trunk/source/level/contactresolvers/AbsorbProjectileContactResolver.cpp:38-42 | a projectile hitting the valid object that fired it is not queued |
| ContactResolver.AbsorbedSymmetric | trunk/source/level/contactresolvers/AbsorbProjectileContactResolver.cpp:25-34 | when exactly one object is a projectile, swapping A and B gives the same outcome |
| ContactResolver.AbsorbProjectileContactResolver.constructor | trunk/source/level/contactresolvers/AbsorbProjectileContactResolver.cpp:16-18 | the object manager and projectile material given |
| ContactResolver.AbsorbProjectileContactResolver.ResolveObjectObject | trunk/source/level/contactresolvers/AbsorbProjectileContactResolver.cpp:21-43 | fails exactly as `AbsorbedBy` does, queueing nothing; otherwise the queue gains exactly what `AbsorbedBy` gives |
| ContactResolver.AbsorbProjectileContactResolver.ResolveObjectWorld | trunk/source/level/contactresolvers/AbsorbProjectileContactResolver.cpp:45-48 | A's owner is always queued |
| Posture.NewPosture | trunk/source/level/objects/commands/CmdBipedChangePosture.cpp:37 | "crouch" exactly when the current posture is "stand", "stand" for anything else |
| Posture.NewPostureTwice | trunk/source/level/objects/commands/CmdBipedChangePosture.cpp:37 | changing twice from either known posture comes back to it |
| Posture.PostureTarget | trunk/source/level/objects/commands/CmdBipedChangePosture.cpp:44-46 | x and y unchanged; z moved by half the height difference, so the feet stay at the same height |
| Posture.PostureTargetBack | trunk/source/level/objects/commands/CmdBipedChangePosture.cpp:44-46 | changing back with the heights swapped returns to the start |
| Posture.Execute | trunk/source/level/objects/commands/CmdBipedChangePosture.cpp:23-57 | nothing changes during a traversal or when the target is solid for the new bounds; otherwise posture = new, position = target, nav polygon = −1 |
| Movement.FirstHit | trunk/source/level/objects/components/CmpMovement.cpp:99-115 | the first out link whose hit test succeeds, with its hit point; none exactly when no link is hit |
| Movement.ProgressStaysBelowOne | trunk/source/level/objects/components/CmpMovement.cpp:191-201 | spending less than the remaining traversal time moves t forward but keeps it below 1 |
| Movement.ShareOfRest | trunk/source/level/objects/components/CmpMovement.cpp:194 | adding a share q < 1 of what is left of [t, 1] stays in [t, 1) |
| Movement.CmpMovement.constructor | trunk/source/level/objects/components/CmpMovement.cpp:20-22 | no current nav polygon (−1) and no traversal |
| Movement.CmpMovement.SetCurNavPolyIndex | trunk/source/level/objects/commands/CmdBipedChangePosture.cpp:56 | the current nav polygon becomes the index; the traversal is unchanged |
| Movement.CmpMovement.AttemptNavmeshAcquisition | trunk/source/level/objects/components/CmpMovement.cpp:31-40 | the polygon found from the position, starting at the last known one; true exactly when it is not −1 |
| Movement.CmpMovement.DoNavmeshMove | trunk/source/level/objects/components/CmpMovement.cpp:79-151 | no hit with the end inside the polygon: position = end, no time left; no hit outside: the unimplemented direct move; a hit: position = hit point, time reduced by distance/speed, a traversal starting at t = 0 |
| Movement.CmpMovement.DoTraverseMove | trunk/source/level/objects/components/CmpMovement.cpp:153-203 | no-op without a traversal; when the rest fits, the destination polygon, no traversal, time reduced by the remaining traversal time; otherwise t advanced within [t, 1) and no time left |
| Movement.CmpMovement.Move | trunk/source/level/objects/components/CmpMovement.cpp:42-65 | the passes end with no time left or a last pass of at most 0.0001 s, or with the unimplemented direct move |
| Movement.PassShrinksBudget | trunk/source/level/objects/components/CmpMovement.cpp:64 | a pass spending more than 0.0001 s lowers the time left in 0.0001 s steps, so `move` ends |
| Movement.SaveMovement | trunk/source/level/objects/components/CmpMovement.cpp:67-70 | no properties |
| WalkLinks.SourcePosition | trunk/source/level/nav/WalkLink.cpp:83-86 | the edge's midpoint, equally far from both ends |
| WalkLinks.DestPosition | trunk/source/level/nav/WalkLink.cpp:26-29 | the same midpoint as the source position |
| WalkLinks.TraversalTime | trunk/source/level/nav/WalkLink.cpp:88-91 | 0 at every speed |
| WalkLinks.Traverse | trunk/source/level/nav/WalkLink.cpp:93-96 | the source, unchanged, for every t |
| WalkLinks.Output | trunk/source/level/nav/WalkLink.cpp:64-67 | `Walk`, a space, then the data `load` reads |
| WalkLinks.Load | trunk/source/level/nav/WalkLink.cpp:46-62 | succeeds exactly when two ints are extracted as `>>` extracts them and an edge reads from the words left, and returns the link between those polygons along that edge; otherwise "Bad walk link data" |
| WalkLinks.LoadGluedIndices | trunk/source/level/nav/WalkLink.cpp:57 | a negative destination glued to the source, such as `3-4`, reads as the polygons 3 and -4 |
| WalkLinks.LoadOutput | trunk/source/level/nav/WalkLink.cpp:46-67 | what `output` writes after the keyword, `load` reads back as the same link |

## Left out

- Line endings and `line.separator`: a line is what `std::getline` or `readLine` returns. Carriage returns and the platform line separator are not modelled.
- Floating point: `double` and `float` are `real`. Text forms of numbers go through a `NumberText`, a show function paired with a read function. Lengths, weights and coordinates written as text read back through it. Exact round trips assume it reads back what it shows. IEEE rounding, `fabs` and epsilon comparisons are not modelled.
- The binary path table: it is read and written through a `PathTableCodec` parameter. Its `reinterpret_cast` byte layout is not modelled.
- Nav-link construction and output (`NavLinkFactory`, each link's `output`) are a `LinkCodec` parameter. For walk links, `output`/`load` are modelled by `WalkLinks`. The edge's own stream operators are a `SegmentCodec` parameter.
- NavMeshText.UntilClose: when the input ends inside the Links or Polygons block, each further `std::getline` fails. If the text ends with a line break, the first failing call empties `line`. Otherwise `line` keeps the last value the source's own loops stored in it. `line` is shared by the Links and Polygons loops (trunk/source/io/sections/NavSection.cpp:175), so that value is the last line the loop read, or the Links block's `}` in the Polygons loop, or the empty string in the Links loop. The source then has three outcomes: (1) it loops forever when that line parses; (2) it breaks on a stale `}`, and the closing `}` check (NavSection.cpp:247) then fails with "Unexpected EOF whilst trying to read }"; (3) it fails with the parser's own error for the empty line. The model has one behaviour: it reports the parser's error for the empty line when the parser rejects it, and the block's EOF error otherwise. It agrees with the source in outcome (3) and differs in (1) and (2). Its input is the text's lines, as `SplitLines` gives them, and `SplitLines` forgets whether the text ends with a line break, so the model cannot tell the cases apart.
- NavSection.AdjacencyListAt: a negative adjacency list size is reported as "The adjacency list size was negative", an error of the model's own. The source passes the size to `new AdjacencyList(size)` (trunk/source/io/sections/NavSection.cpp:109), and `AdjacencyList.cpp` is not part of this model.
- `read_aabb`, `FileSectionUtil::load_polygon`, texture-plane coordinates and `FieldIO::read_typed_field` in `mef2input` are parameters. `FieldIO.h`, `Properties.h` and `ObjectID.h` are not part of this model; property maps and fields are modelled by their observable lookups.
- Writing the brushes and lights files at the end of `run_converter`, opening files, and the `main` wrappers that print and exit are left out.
- The map editor's `TextureManager` is modelled by its registry (name → filename). Whether a texture file exists is a parameter.
- Reflection in `load_MEF<v>` (`Class.forName`/`invoke`): the brush class named by a line is loaded by a per-class loader parameter. The light brush's `load_MEF3` is modelled in `Brushes`.
- `save_MEF2`, `deghost`, the command manager's history, `NullTransformation`'s empty methods, rendering, picking, selection metrics and the properties dialog of the map editor are left out.
- Snapping to the grid and finding the nearest corner handle in `TranslationTransformation` are parameters.
- `run_compiler_ex` in `hbsp` only loads, builds the tree and saves, so it is left out. Only `main`'s argument handling is modelled.
- Loading the definitions and brushes, `BrushExpander::expand_brush` and saving in `hexpand` are parameters of `RunExpander`.
- `RBTMatrix::from_axis_angle_translation` uses cos and sin, and is left out.
- NYI stubs: `do_direct_move` is reached as the error `DirectMoveNotImplemented`. `update_move_direction_for_sliding` and `LightmapGrid::lightmap_from_light` throw, and are left out.
- The Vector3d default constructor is taken to give (0, 0, 0).
- `PhysicsMaterial` is a `nat` standing for the enumerator.
- The owner and the firer of a physics object, which the resolver gets from the object manager, are function parameters.
- EntityManager.Create: requires the entities to be distinct objects, since the source sets each one's id by pointer. What `Entity::save` writes is a parameter.
- `CmpUsable::save` stores no hotspot positions or orientations, as in the source.
- Movement.CmpMovement.Move: requires speed ≠ 0 and milliseconds ≥ 0. It returns the final move state and the time spent by the last pass. It does not describe the position after all the passes, only why they stopped.
- `find_nav_polygon`, the plane projection, normalisation, point-in-polygon, the distance, link hit tests, traversal times and bounds lookups are parameters of the movement and posture code. The tree's solidity test is one too.
- `WalkLink::hit_test` depends on epsilon comparisons of floating-point geometry and is left out.
- WalkLinks.Load: the source does not check the stream after `ss >> sourcePoly >> destPoly >> edge`, so on malformed data it builds a link from whatever the failed extractions left. The model reports such data as the error "Bad walk link data" instead.
- The warnings `mef2input` writes to standard output when it skips a section it cannot read (trunk/source/tools/mef2input/main.cpp:153, 201) are not modelled; the model skips the section silently.
- The "Missing texture file" message that `load_MEF` writes to `System.err` when a texture cannot be loaded (MapEditor/trunk/Maps/MapFileMEF.java:251) is not modelled; as in the source, reading goes on.
- Concurrency, input, rendering and the game loop are outside the modelled core.

## Findings

| source | as written | input that shows it | evidently intended | confidence | as-written member | corrected member |
|---|---|---|---|---|---|---|
| trunk/source/io/sections/NavSection.cpp:208-222 | the in-link and out-link loops of `read_navmesh` stop only on a `]` word; once the line is used up, `ss >> dummy` fails and leaves `dummy` unchanged | the polygon line `0 0 [ 5`: the loop adds the link 5 again on every pass and never ends | a polygon line that ends before its `]` is reported as a bad link for that polygon | not executed | NavMeshText.UnclosedLinksLine | NavMeshText.CorrectedLinksAgree |
