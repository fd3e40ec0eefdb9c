# Servo DOM builder, caches and font context in Dafny

This project models three parts of an early Servo browser engine:

- **`src/servo/html/dom_builder.rs`** turns the HTML lexer's token stream into
  a DOM tree in a node store (`NodeScope`). Along the way it sends stylesheet
  links to a CSS listener task and script sources to a JavaScript listener
  task.
- **`src/components/util/cache.rs`** defines two caches behind the `Cache`
  interface:
  - `MonoCache`, which has one slot;
  - `LRUCache`, a bounded vector of pairs kept with the oldest entry at the
    front.
- **`src/components/gfx/font_context.rs`** resolves a font style to a font
  group and caches the result. It uses its own copy of `LRUCache`, a map of
  generic family names, and a `MonoCache` of font instances.

## Layout

- `common.dfy` (module `Common`) holds shared types:
  - `Option`;
  - `Outcome`, which is either a value or a task failure (Rust `fail`,
    `assert!`, `.get()` on `None`, or an out-of-range `remove`);
  - the whitespace predicate.
- `cache.dfy` (module `Cache`):
  - the functions `Position`, `MoveToBack` and `Inserted`. They describe what
    the `LRUCache` vector operations do to the entry sequence;
  - lemmas relating lookups to those operations;
  - the two cache classes.
- `strings.dfy` (module `Strings`) holds `str::each_split_char` and
  `str::trim`, which the font context applies to the family list.
- `font_context.dfy` (module `FontContext`) holds:
  - the font context's own `LRUCache` class, specified with the `Cache`
    functions;
  - the generic-family table and `transform_family`;
  - the font-group specification `FontGroupFor`;
  - the `FontContext` class.
- `dom_builder.dfy` (module `DomBuilder`) holds:
  - the element and node types;
  - `build_element_kind` and `link_up_attribute`;
  - the node store as an arena class;
  - the token loop. It is specified as a state machine (`Step`, `Run`), and
    the imperative `BuildDom` method (with its loop body `ProcessToken`) is
    proved against it;
  - the listeners' aggregates.

## How the model is built

**The node store.** `NodeScope` is an arena: a sequence of nodes, where each
node records its parent index and its content. `AddChild` links a node
created after its parent. The arena invariant says every parent is an older
element, so the tree is acyclic by construction. A node's children are the
nodes whose parent link names it, in creation order (`Children`). This is the
order `add_child` appends in.

**The token loop.** The lexer's token stream becomes a finite sequence. The
lexer's `Text` token is the `Characters` constructor here, because `Text` is
already the name of the text node content.

The two listener channels become the lists of URLs submitted to them:
`styleUrls` and `scriptUrls`. What each listener then sends back is given by
`CollectStyleRules` and `CollectScripts`. These are over a parameter standing
for the fetch-and-parse of one URL.

**Functions passed in as parameters.** These are supplied by the caller
rather than modelled:
- `make_url` and `int::from_str` are the `Env` fields `makeUrl` and
  `parseInt`;
- the font list lookup is `fontsInFamily`. It yields, in order, the font
  instances it creates for one family;
- font creation is `createInstance`.

**What `build_dom` returns.** `build_dom` returns the cursor at `Eof`, and the
model does the same. The cursor is the `html` root only when every opened tag
was closed. The code is followed here, even where a description of the
function speaks of returning the root.

**Helper functions.** Some pieces of the source are helper functions with
no contract of their own. The members that use them state what they do:
- `FontContext.FamilyName` is the trim-then-`transform_family` of one list
  entry (font_context.rs:182-183). `FamilyNames` maps it over the list.
- `FontContext.GroupFonts` is the `push` loop over each family's fonts
  (font_context.rs:186-196). `GroupFontsAppend`, `GroupFontsEmpty` and
  `CreateFontGroup`'s loop invariant describe it.
- `DomBuilder.StylesheetHref` is the closure that reads a `link` element's
  `rel` and `href` (dom_builder.rs:214-234). `DomBuilder.ScriptSrc` is the
  closure that reads a `script` element's `src` (dom_builder.rs:239-253).
  `SelfCloseSubmitsStylesheet` and `EndTagSubmitsScript` state them.
- `DomBuilder.CloseCursor` is `get_parent(..).get()` on the cursor, which
  fails at the root (dom_builder.rs:235 and 254). `Step`'s failure clause
  states it.

## Model

| member | source | states |
|---|---|---|
| Cache.Position | src/components/util/cache.rs:96 | The index of the first entry with the key, if any. Every earlier entry has another key. None exactly when no entry has the key. |
| Cache.MoveToBack | src/components/util/cache.rs:77-84 | The entries after `touch(pos)`: the same length and the same multiset of entries, with the touched entry last. The others keep their relative order. |
| Cache.Inserted | src/components/util/cache.rs:88-93 | After `insert`, the pair is last and the size bound is kept. Below capacity it is appended. At capacity the front entry is evicted first. |
| Cache.LookupAfterInsertMiss | src/components/util/cache.rs:88-100 | After a miss, an insert makes the next lookup find the inserted value at the back. |
| Cache.InsertDoesNotReplace | src/components/util/cache.rs:88-93 | `insert` of a key already present does not replace it. While nothing is evicted, lookups keep finding the older entry first. |
| Cache.LookupAfterTouch | src/components/util/cache.rs:77-100 | With distinct keys, after a hit the same key is found at the back with the same value. |
| Cache.MovedIsFound | src/components/util/cache.rs:77-84 | With distinct keys, the touched entry's key is found at the back after `touch`. |
| Cache.MoveToBackKeepsKeysDistinct | src/components/util/cache.rs:77-84 | Touching keeps keys pairwise distinct. |
| Cache.InsertMissKeepsKeysDistinct | src/components/util/cache.rs:102-111 | Inserting after a miss, as `find_or_create` does, keeps keys pairwise distinct. |
| Cache.MonoCache.constructor | src/components/util/cache.rs:17-19 | A new mono cache is empty. The size argument is ignored. |
| Cache.MonoCache.Insert | src/components/util/cache.rs:23-25 | The slot holds exactly the inserted pair. |
| Cache.MonoCache.Find | src/components/util/cache.rs:27-32 | A hit exactly when the slot holds the key, returning its value. Nothing changes. |
| Cache.MonoCache.FindOrCreate | src/components/util/cache.rs:34-43 | A hit returns the stored value and leaves the slot alone. A miss returns `blk(key)`, which replaces the previous pair. |
| Cache.MonoCache.EvictAll | src/components/util/cache.rs:44-46 | The slot is emptied. |
| Cache.MonoCacheTest | src/components/util/cache.rs:49-62 | Each lookup of the unit test gives the result the test asserts: 1 found, 2 missing, 2 found after `find_or_create`, 1 then evicted. |
| Cache.LRUCache.constructor | src/components/util/cache.rs:70-75 | A new LRU cache is empty with the given capacity. |
| Cache.LRUCache.Touch | src/components/util/cache.rs:77-84 | Returns the value at `pos`, and the entries become `MoveToBack`. The `pos != cache_size` guard always holds. |
| Cache.LRUCache.Insert | src/components/util/cache.rs:88-93 | The entries become `Inserted`. With capacity 0, `remove(0)` on the empty vector fails the task and nothing changes. |
| Cache.LRUCache.Find | src/components/util/cache.rs:95-100 | A hit returns the first matching value and moves that entry to the back. A miss changes nothing. |
| Cache.LRUCache.FindOrCreate | src/components/util/cache.rs:102-111 | A hit behaves as `find`. A miss inserts and returns `blk(key)`, failing as `insert` does at capacity 0. |
| Cache.LRUCache.EvictAll | src/components/util/cache.rs:113-115 | The entries are cleared and the capacity is kept. |
| Cache.EvictAllThenFind | src/components/util/cache.rs:113-115 | After `evict_all`, a lookup in either cache misses, including the mono cache's eviction at lines 44-46. |
| Strings.SplitChar | src/components/gfx/font_context.rs:181 | Splitting always yields at least one piece, and no piece contains the separator. |
| Strings.SplitJoin | src/components/gfx/font_context.rs:181 | Joining the pieces with the separator gives back the string: splitting loses nothing. |
| Strings.SplitCharNoSep | src/components/gfx/font_context.rs:181 | A string without the separator is a single piece. |
| Strings.SplitCharAt | src/components/gfx/font_context.rs:181 | The first separator ends the first piece, and the rest is split on its own. |
| Strings.LeadingWhitespace | src/components/gfx/font_context.rs:182 | The length of the leading whitespace run: all whitespace, and followed by a non-whitespace character or the end. |
| Strings.TrailingWhitespace | src/components/gfx/font_context.rs:182 | The length of the trailing whitespace run, symmetrically. |
| Strings.Trim | src/components/gfx/font_context.rs:182 | The trimmed string is the contiguous part after the leading whitespace, followed only by whitespace. It neither starts nor ends with whitespace. |
| Strings.TrimEmpty | src/components/gfx/font_context.rs:182 | Trimming leaves nothing exactly when the string is all whitespace. |
| Strings.TrimUnpadded | src/components/gfx/font_context.rs:182 | A string with no whitespace at either end is its own trim, so trimming is idempotent on such strings. |
| FontContext.LRUCache.constructor | src/components/gfx/font_context.rs:26-31 | A new cache is empty with the given capacity. |
| FontContext.LRUCache.Lookup | src/components/gfx/font_context.rs:33-38 | A hit returns the first matching value and moves the entry to the back (`Cache.MoveToBack`). A miss changes nothing. |
| FontContext.LRUCache.LookupOrInsert | src/components/gfx/font_context.rs:42-47 | A hit behaves as `lookup`. A miss inserts and returns `f(key)`. |
| FontContext.LRUCache.Insert | src/components/gfx/font_context.rs:49-57 | Returns the inserted value, and the entries become `Cache.Inserted`. Fails at capacity 0. |
| FontContext.LRUCache.Touch | src/components/gfx/font_context.rs:59-68 | Returns the value at `pos` and moves the entry to the back. The guard always holds. |
| FontContext.TransformFamily | src/components/gfx/font_context.rs:164-172 | Each of the five generic names becomes its fixed family, as entered at lines 112-117. Every other name is unchanged. |
| FontContext.TransformFamilyIdempotent | src/components/gfx/font_context.rs:164-172 | Transforming twice equals transforming once: no generic name maps to another generic name. |
| FontContext.GroupFontsAppend | src/components/gfx/font_context.rs:181-201 | Families are visited in order. A list's fonts are those of its first part followed by those of the rest. |
| FontContext.GroupFontsEmpty | src/components/gfx/font_context.rs:181-203 | No fonts are collected exactly when the font list has none for any family named. |
| FontContext.DummyStyleSplit | src/components/gfx/font_context.rs:73-82 | The family list of `dummy_style` splits into "serif" and " sans-serif". |
| FontContext.DummyStyleEntries | src/components/gfx/font_context.rs:182-183 | Those entries resolve to Times New Roman and Arial once trimmed and transformed. |
| FontContext.DummyStyleFamilyNames | src/components/gfx/font_context.rs:181-183 | The `dummy_style` list asks the font list for Times New Roman and then Arial. |
| FontContext.DummyStyleFonts | src/components/gfx/font_context.rs:181-196 | The group for `dummy_style` holds the Times New Roman fonts followed by the Arial fonts. |
| FontContext.FontGroupFor | src/components/gfx/font_context.rs:175-210 | The group creation fails without a font list. Given a font list, it fails exactly when no named family yields a font. Otherwise the group carries the style, its family list and at least one font. |
| FontContext.FontContext.constructor | src/components/gfx/font_context.rs:102-130 | Empty instance and group caches, the latter of capacity 5. A font list is present exactly when one is needed. |
| FontContext.FontContext.CreateFontGroup | src/components/gfx/font_context.rs:175-210 | The loop over split, trimmed and transformed families computes exactly `FontGroupFor`, including both failures. |
| FontContext.FontContext.GetResolvedFontForStyle | src/components/gfx/font_context.rs:136-147 | A cached group is returned and moved to the back. Otherwise the created group is returned and inserted, or the creation failure is propagated with the cache unchanged. The group cache's keys stay pairwise distinct. |
| FontContext.FontContext.GetFontByDescriptor | src/components/gfx/font_context.rs:149-162 | A cached instance is returned. Otherwise the created result is returned, and it is cached only when it is `Ok`. |
| FontContext.ResolveTwice | src/components/gfx/font_context.rs:136-147 | On any valid context, once a style resolves, resolving it again returns the same group. Validity includes pairwise distinct keys in the group cache, which the constructor establishes and `GetResolvedFontForStyle` keeps. |
| DomBuilder.BuildElementKind | src/servo/html/dom_builder.rs:67-79 | `div`, `img`, `script` and `head` map to their kinds, with images 100 by 100 px. Every other tag is `UnknownElement`. |
| DomBuilder.LinkAttr | src/servo/html/dom_builder.rs:28-65 | On an element: appends the attribute, and sets the image width or height only for those keys with a parseable value. Fails on a text node. |
| DomBuilder.GetAttr | src/servo/html/dom_builder.rs:217-219 | The value of the first attribute with the key. None exactly when no attribute has it. |
| DomBuilder.ChildrenBelowSameParents | src/servo/html/dom_builder.rs:200 | Children depend only on parent links. |
| DomBuilder.AppendChild | src/servo/html/dom_builder.rs:199-200 | A node created and linked under `p` becomes `p`'s last child. Other nodes' children are unchanged. |
| DomBuilder.NodeScope.constructor | src/servo/html/dom_builder.rs:171 | The store starts empty. |
| DomBuilder.NodeScope.NewNode | src/servo/html/dom_builder.rs:199 | Appends one parentless node and returns its handle. |
| DomBuilder.NodeScope.AddChild | src/servo/html/dom_builder.rs:200 | Sets the child's parent link and nothing else. The arena stays valid. |
| DomBuilder.LinkUpAttribute | src/servo/html/dom_builder.rs:28-65 | Updates the node in place to `LinkAttr` of its old content, or fails with the store unchanged. |
| DomBuilder.Step | src/servo/html/dom_builder.rs:192-266 | One token fails exactly when it closes a tag at the root. Otherwise the result keeps the state well formed and keeps every existing parent link. Submitted URL lists only grow. |
| DomBuilder.Run | src/servo/html/dom_builder.rs:192-267 | The loop up to `Eof` keeps the same invariants. A stream without `Eof` fails. |
| DomBuilder.ProcessToken | src/servo/html/dom_builder.rs:194-266 | The loop body for one non-`Eof` token. It updates the store in place, then returns the new cursor and submission lists. Both are exactly `Step`'s result, and it fails exactly when `Step` does. |
| DomBuilder.BuildDom | src/servo/html/dom_builder.rs:171-273 | Creates the `html` root and runs the imperative token loop. Succeeds exactly when `Run` does, leaving the store, returned node and submissions equal to `Run`'s. |
| DomBuilder.StartTagAddsLastChild | src/servo/html/dom_builder.rs:196-202 | A start tag appends one element of `BuildElementKind`, the cursor's last child, and moves the cursor to it. No other node gains a child. |
| DomBuilder.AttrKeepsCursor | src/servo/html/dom_builder.rs:203-206 | An attribute changes only the cursor's content, to `LinkAttr`'s result. Cursor, tree shape and submissions are unchanged. |
| DomBuilder.IgnoredTokens | src/servo/html/dom_builder.rs:256-265 | Doctype and whitespace-only text change nothing. The same holds for `EndOpeningTag` (lines 207-209). |
| DomBuilder.TextAddsChild | src/servo/html/dom_builder.rs:256-259 | Non-blank text appends one text node as the cursor's last child. The cursor stays. |
| DomBuilder.SelfCloseSubmitsStylesheet | src/servo/html/dom_builder.rs:212-236 | A self-closing tag submits one style URL exactly for a `link` with `rel="stylesheet"` and an `href`, built by `make_url`. It then moves to the parent, and fails at the root. |
| DomBuilder.EndTagSubmitsScript | src/servo/html/dom_builder.rs:237-255 | An end tag submits one script URL exactly for a `script` with a `src`. It then moves to the parent whatever the tag name, and fails at the root. |
| DomBuilder.CollectStyleRulesAppend | src/servo/html/dom_builder.rs:95-124 | The style listener concatenates stylesheets in submission order, so later submissions only append rules. |
| DomBuilder.CollectScripts | src/servo/html/dom_builder.rs:126-168 | The script listener replies with one buffer per submitted URL, in order. |
| DomBuilder.RunSplit | src/servo/html/dom_builder.rs:192-267 | Tokens are consumed in order. Take an `Eof`-free prefix, run it up to an `Eof` placed after it, then run the rest from the state reached: this equals running the whole stream. |

## Left out

- Concurrency: the listener tasks, channels and ports. Each listener is
  modelled by the URLs submitted to it and by what it replies.
- Script loading can hang. In `js_script_listener` a `Done(Err)` reply does
  not leave the receive loop (dom_builder.rs:152-154), so the listener then
  waits forever for a reply. This is a liveness property of concurrent code
  and is outside the model.
- Resource loading, the CSS lexer and parser, and logging are left out.
- `make_url` and `int::from_str` are parameters, not modelled.
- `au::from_px` is kept symbolic as the `FromPx` constructor. Its unit
  conversion is not modelled.
- `dom::base` is not part of this model. This covers `NodeScope`, `Node`,
  `ElementData` and `get_attr`.
  - The arena class stands in for `NodeScope`.
  - `get_attr` is taken to return the first attribute with the key.
  - `DomBuilder.NodeScope.AddChild`: requires a parentless child created
    after its parent. That is how `build_dom` uses it; the general
    `add_child` of `dom::base` is not modelled.
- Whitespace is the ASCII subset (space, tab, line feed, vertical tab, form
  feed, carriage return). Unicode whitespace is not modelled.
- `str::each_split_char` is taken to report empty pieces, including the one
  piece of an empty string. The core library's source is not part of this
  model.
- Font machinery is passed in as parameters:
  - the platform font handle;
  - `FontList::find_font_in_family` (`fontsInFamily`);
  - `Font::new_from_existing_handle`, whose failed instances are skipped and
    so are simply absent from `fontsInFamily`'s answer;
  - `create_font_instance` (`createInstance`).
  Backend selection and the profiler channel are not modelled.
- `FontStyle.pt_size` is a float and is a `real` here. Both caches
  therefore tell apart styles that differ only in size, as the source's keys
  do. Float equality is not modelled: a NaN size, which differs from
  itself, is not represented. `FontWeight300` becomes the number 300.
- `generic_fonts` is a constant map. `FontContext::new` fills it and nothing
  changes it later.
- The `Cache` interface is not modelled as a trait. Each cache class carries
  the four operations directly.
- `FontContext.FontContext.CreateFontGroup`: the group is specified by value.
  The `@` box sharing of font groups and fonts is not modelled.
