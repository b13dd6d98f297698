# webtrees: media records and the Charts block, in Dafny

This project models two pieces of webtrees, a genealogy web application.

* **The media object record** (`Media`, a GEDCOM record of type `OBJE`). It covers:
  * the list of its media files, one per `FILE` fact;
  * the first of those files that is an image;
  * its first note, following an `@XREF@` pointer to a shared note;
  * the names it is listed under: titles and filenames, deduplicated, without falsy
    strings, or a fallback name;
  * the rule that hides it when any existing record linking to it is hidden.
* **The "Charts" dashboard block** (`ChartsBlockModule`). It covers:
  * how the block picks its chart type and its individual: a `cfg` override, else the
    stored block setting, else a default (the user's own individual, else the tree's
    `PEDIGREE_ROOT_ID`);
  * the reset of an unresolvable individual to the tree's root, which is written back
    to the settings;
  * dispatch on the four chart types, with empty content for any other type;
  * the "select an individual" message;
  * who sees the configuration link;
  * saving the settings only on a save request with a valid CSRF token.

Files:

* `wrappers.dfy`: `Option` and `Result`.
* `php_arrays.dfy`: the PHP semantics the record relies on: string truthiness
  (`''` and `'0'` are false), `array_unique` and `array_filter`.
* `media.dfy` (module `MediaRecord`): class `Media`. Its facts are fixed once loaded.
  Its `names` list is the state that `addName` appends to.
* `charts_block.dfy` (module `ChartsBlock`): class `ChartsBlockModule`. Its stored
  settings, a map from (block id, setting name) to a string, are its state. The rendered
  HTML is replaced by an abstract `BlockOutput`: the chart kind and its individual, the
  "select an individual" message, or nothing. The title and the presence of a
  configuration link are part of it.

External collaborators are parameters:

* the SQL link query is a list of linked xrefs;
* `GedcomRecord::getInstance` and `Individual::getInstance` are lookup functions;
* the visibility of other records is an oracle `canShow`;
* the parent class's visibility rule is a boolean;
* building a `MediaFile` from a fact is a function `parse`;
* `WT_REGEX_XREF` is a predicate `isXref`;
* the shared note behind a pointer is a function `noteTarget`: no note, or a note whose own
  `getNote()` gives a text or null;
* the signed-in user, the tree and the dashboard type (`$ctype`) form a `Context`.

Behaviour of the code worth knowing:

* Names are registered in first-occurrence order, because `array_unique` keeps the first
  of equal values.
* A save request with a valid CSRF token stores `pedigree` for an unknown chart type, and
  removes the stored `pid` when the posted one is missing or malformed.
* A `cfg` `pid` that does not resolve makes `getBlock` store the tree's root as the block's
  `pid`, replacing a stored `pid` that did resolve.

## Model

| member | source | states |
|---|---|---|
| MediaRecord.Media.CanShowByType | app/Media.php:35-51 | visible iff the parent rule allows it and every linked id that resolves to a record resolves to one visible at the access level |
| MediaRecord.HiddenLinkHides | app/Media.php:42-46 | one existing linked record hidden at the access level hides the media object, whatever the parent rule says |
| MediaRecord.DanglingLinkIgnored | app/Media.php:42-47 | inserting a link to a record that does not exist anywhere in the link list never changes the decision |
| MediaRecord.FileFacts | app/Media.php:78 | the selected facts are exactly the record's FILE facts |
| MediaRecord.FileFactsAppend | app/Media.php:78-80 | selecting FILE facts commutes with concatenation, so they come out in record order |
| MediaRecord.MediaFileListPerFact | app/Media.php:75-83 | exactly one media file per FILE fact, the k-th built from the k-th FILE fact's GEDCOM |
| MediaRecord.MediaFileListEmpty | app/Media.php:75-83 | the list of media files is empty iff the record has no FILE fact |
| MediaRecord.Media.MediaFiles | app/Media.php:75-83 | the loop appending one file per FILE fact yields the record's media file list |
| MediaRecord.FirstIndex | app/Media.php:91-97 | an early-return scan gives none iff no element qualifies, else the index of a qualifying element with none qualifying before it |
| MediaRecord.Media.FirstImageFile | app/Media.php:90-98 | null iff no media file is an image; otherwise an image file that occurs in the list with no image before it |
| MediaRecord.Media.GetNote | app/Media.php:100-117 | '' when there is no NOTE fact; null only when a NOTE fact points to a note whose own note is null; an error only when a NOTE fact points to a note that does not exist |
| MediaRecord.GetNoteReadsFirstNote | app/Media.php:106-113 | only the first NOTE fact counts: its value, or what the linked note's `getNote()` gives (text or null) when the value is an `@XREF@` pointer, or the error for a missing target |
| MediaRecord.IsXrefPointer | app/Media.php:109 | the value is a pointer iff it is `@X@` or `@X@` followed by a newline for some X the xref pattern accepts |
| MediaRecord.XrefPointerForms | app/Media.php:109 | `@X@` and `@X@` followed by a newline are pointers exactly when X matches the xref pattern |
| MediaRecord.RawNamesMembers | app/Media.php:123-127 | the collected names are exactly the titles and filenames of the media files |
| PhpArrays.Unique | app/Media.php:128 | `array_unique` keeps exactly the values of its input, with no duplicates |
| PhpArrays.UniqueOrder | app/Media.php:128 | `array_unique` keeps values in the order of their first occurrence |
| PhpArrays.UniqueOfDistinct | app/Media.php:128 | `array_unique` leaves a list without duplicates unchanged |
| PhpArrays.DropFalsy | app/Media.php:128 | `array_filter` keeps exactly the values PHP treats as true (neither '' nor '0') |
| PhpArrays.DropFalsyKeeps | app/Media.php:128 | filtering keeps a list free of duplicates and in first-occurrence order |
| MediaRecord.ExtractedNames | app/Media.php:122-137 | at least one name; only the fallback when no file has a truthy title or filename; otherwise exactly the truthy titles and filenames, each once, in first-occurrence order |
| MediaRecord.Registered | app/Media.php:134-136 | one registered name per surviving name, in order, each of type OBJE |
| MediaRecord.Media.AddName | app/Media.php:135 | registering a name appends it to the record's names |
| MediaRecord.Media.ExtractNames | app/Media.php:122-137 | the loops register exactly the names of ExtractedNames, as type OBJE, after the names already there |
| ChartsBlock.KindOf | app/Module/ChartsBlockModule.php:79-131 | a type string selects the chart whose name it is, and none for any string other than the four names |
| ChartsBlock.KindNameRoundTrip | app/Module/ChartsBlockModule.php:184 | each of the four chart names selects its own chart |
| ChartsBlock.ChartsBlockModule.GetTitle | app/Module/ChartsBlockModule.php:35-37 | the block's own title is the module title |
| ChartsBlock.ChartsBlockModule.LoadAjax | app/Module/ChartsBlockModule.php:156-158 | always true |
| ChartsBlock.ChartsBlockModule.IsUserBlock | app/Module/ChartsBlockModule.php:161-163 | always true |
| ChartsBlock.ChartsBlockModule.IsGedcomBlock | app/Module/ChartsBlockModule.php:166-168 | always true |
| ChartsBlock.ChartsBlockModule.GetBlockSetting | app/Module/ChartsBlockModule.php:59-60 | a stored setting, or the given default when the block has none |
| ChartsBlock.ChartsBlockModule.SetBlockSetting | app/Module/ChartsBlockModule.php:71 | stores a value under (block, name), or removes it when the value is null |
| ChartsBlock.BlockSettingAfterStore | app/Module/ChartsBlockModule.php:71-72 | reading a setting just stored gives the stored value (the default after a removal); other settings read as before |
| ChartsBlock.ChartsBlockModule.GetBlock | app/Module/ChartsBlockModule.php:53-153 | the output is the rendering of the overridden or stored or default type and individual; the settings change only by the pid reset |
| ChartsBlock.DefaultPid | app/Module/ChartsBlockModule.php:60 | the signed-in user's gedcomid when it is neither '' nor '0', otherwise PEDIGREE_ROOT_ID |
| ChartsBlock.DefaultsWhenNothingStored | app/Module/ChartsBlockModule.php:56-60 | with nothing stored and no override: type 'pedigree'; pid the user's gedcomid when signed in and truthy, else PEDIGREE_ROOT_ID |
| ChartsBlock.OnlyTypeAndPidOverride | app/Module/ChartsBlockModule.php:62-66 | cfg's type and pid win over stored values; every other cfg key changes neither the output nor the settings |
| ChartsBlock.RenderWritesOnlyPid | app/Module/ChartsBlockModule.php:68-73 | an unresolvable pid is overwritten by the root, even an unresolvable root; no other setting changes; a resolvable pid writes nothing |
| ChartsBlock.UnresolvedCfgPidResetsStoredPid | app/Module/ChartsBlockModule.php:62-71 | a cfg pid that does not resolve replaces a stored pid that does resolve with the tree's root |
| ChartsBlock.NoIndividualShowsMessage | app/Module/ChartsBlockModule.php:132-134 | with neither the pid nor the root resolving, the content is the "select an individual" message |
| ChartsBlock.UnknownTypeShowsNothing | app/Module/ChartsBlockModule.php:75-79 | a resolved individual with a type outside the four gives empty content under the module title |
| ChartsBlock.KnownTypeShowsChart | app/Module/ChartsBlockModule.php:77-130 | a resolved individual with one of the four types gives that chart of that individual |
| ChartsBlock.ConfigLinkRule | app/Module/ChartsBlockModule.php:136-149 | with the template, a configuration link appears iff (gedcom dashboard and tree manager) or (user dashboard and signed in) |
| ChartsBlock.RawWithoutTemplate | app/Module/ChartsBlockModule.php:150-151 | without the template the content is returned unchanged |
| ChartsBlock.PostedType | app/Module/ChartsBlockModule.php:184 | the saved type is always one of the four; the posted one if valid, else 'pedigree' |
| ChartsBlock.PostedPid | app/Module/ChartsBlockModule.php:185 | the posted pid when present and accepted by the xref pattern, otherwise null |
| ChartsBlock.ChartsBlockModule.ConfigureBlock | app/Module/ChartsBlockModule.php:177-189 | settings change exactly as a guarded save dictates; the form shows the stored or default type and individual |
| ChartsBlock.ConfigureNeedsSaveAndCsrf | app/Module/ChartsBlockModule.php:183 | without a save request and a valid CSRF token nothing is written |
| ChartsBlock.ConfigureSave | app/Module/ChartsBlockModule.php:183-186 | a save stores a type from the enumeration and the posted xref (or removes an invalid one) and touches no other setting |

## Left out

- SQL: `fetchGedcomRecord` and the `##link` query are not modelled. The linked xrefs and the record's facts are given values.
- `GedcomRecord::canShow` of linked records is an oracle. Its recursion through other records is not modelled and could cycle.
- `getFacts` and `getFirstFact` are not part of this model. The record's facts are taken to be those already visible.
- `MediaFile`, `GedcomRecord`, `Fact`, `Filter`, `Auth`, `Tree` and `AbstractModule` are not part of this model:
  - `MediaFile` is built by the `parse` parameter and reduced to its title, filename and image test.
  - `getFallBackName` is a parameter.
  - `addName` is modelled as appending (type, name) to the record's names. Its sort form and GEDCOM argument are left out.
  - `Fact::getTarget()->getNote()` is the `noteTarget` parameter, keyed by the fact's value.
  - The settings store returns the stored value or the default. Writing null removes the setting.
- MediaRecord.Media.GetNote: when a note pointer's target does not exist, PHP raises a fatal error by calling a method on null. This is modelled as `Failure(MissingNoteTarget)`.
- ChartsBlock.PostedType: `Filter::post` is taken to accept exactly the four names. A PCRE `$` also matches before a final newline, and that case is not modelled.
- ChartsBlock.PostedPid: `Filter::post('pid', WT_REGEX_XREF)` is the opaque `isXref` predicate.
- `formatListDetails`: pure HTML output through `printMediaLinks` and output buffering.
- HTML assembly, output buffering, `HourglassController`, `TreeView`, `InteractiveTreeModule`, `FunctionsPrint`, `View::make`, `Html::url` and `strip_tags` are rendering or foreign calls. The output is the abstract `BlockOutput`, and the URL is reduced to whether a link is shown.
- `getDescription`, `I18N::translate` and the locale-aware `uasort` of chart labels in `configureBlock` are translation and collation. The form markup is left out; only the values the form is filled with are modelled.
- The `block` name (`getName` with `_` replaced by `-`) passed to the template is left out.
- `tests/app/Census/CensusColumnOccupationTest.php` only tests census code that is not part of this model.
- Global request state (`$WT_TREE`, `$ctype`, `Auth`) is passed as the explicit `Context`.
