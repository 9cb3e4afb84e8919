# bit55/templater in Dafny

A model of the rendering core of the bit55/templater PHP library: the
renderer and template objects that run plain-PHP template files, capture
named sections, wrap a page in layouts and escape values, and the manager
that resolves template names to files and picks a rendering engine.

The model follows the three source classes:

- `Renderer.TemplateRenderer` (`template_renderer.dfy`) is the all-in-one
  renderer: path settings, sections, the capture in progress and the layout
  live on one object, and `render` applies one layout level on that same
  object.
- `Templates.Template` (`template.dfy`) is the per-render object that reads
  its path settings from a `Manager.TemplateManager`; its `render` hands the
  layout to a new `Template` seeded only with `content`, so layouts chain.
- `Manager.TemplateManager` (`template_manager.dfy`) holds the path settings,
  resolves names (`pathByName`) and selects the engine.

The classes are imperative Dafny: their fields are the PHP properties and
every method is proved to produce exactly the state and result of a
specification function on values:

- `Paths` — name resolution (`::` namespaces, the default directory, the
  file extension, the existence check), on top of `PhpStrings` (strpos,
  explode, join, case-insensitive identifiers).
- `OutputBuffering` — PHP's output-control stack (`ob_start`, `echo`,
  `ob_get_clean`), as a value `Buffers` and as the object `OutputBuffer`
  that every capturing or rendering method receives.
- `Capture` — start/append/prepend/stop/section/layout as functions from a
  `State` (page fields plus buffers) to a `Step` (new state plus result or
  exception). PHP does not roll back on an exception, so the state after a
  throw is part of every step.
- `Engine` — a template body as a script of the calls it makes (`Action`),
  `Partial` (renderPartial/partial), and the two `render` variants.
- `Filters` — `batch`, `escape`, `e` and `htmlspecialchars` with ENT_QUOTES.
- `Options` — `setOptions` and the setters of the renderer and the manager.
- `Scenarios` — small concrete runs that show the differences between the
  two `render` methods and the behaviour of `stop` after `append`.

Template files are not executed: a `FileSystem` value says which paths
exist and which script a file runs for given data. Nested rendering from
inside a body (`insert`, an echoed `partial`) is the `Insert` action; a
`fuel` argument bounds the nesting depth and the number of layout levels.

`stop()` reads the output buffer twice when appending or prepending to a
section that already has content (src/TemplateRenderer.php:271-276,
src/Template.php:208-213). The model does what that code does: the text
captured since `append`/`prepend` is discarded and the section grows by the
contents of the buffer that encloses the capture, which is closed as well.
The evident intent of append and prepend (start "s", "A", stop, append "s",
"B", stop giving "AB", and "BA" with prepend) is not what the code does; see
"## Findings" below. The classes keep the code's behaviour (`Capture.Stop`);
the one-drain `Capture.StopIntended` states the intended one.

## Model

| member | source | states |
|---|---|---|
| `PhpStrings.IndexOf` | src/TemplateRenderer.php:112 | strpos: the result is the first index where the needle occurs, or none when it occurs nowhere |
| `PhpStrings.Explode` | src/TemplateRenderer.php:113 | explode: at least one piece, joining the pieces with the delimiter gives the input back, no piece holds the delimiter, the first piece ends at the first occurrence, and every piece but the last ends at the leftmost delimiter after it (`x::a:::b` gives `x`, `a`, `:b`) |
| `PhpStrings.Implode` | src/TemplateRenderer.php:117 | join: no pieces give "", one piece is returned as is, and with two or more the result holds the first piece, the delimiter and the last piece |
| `PhpStrings.ImplodeAffixes` | src/TemplateRenderer.php:117 | the joined text starts with the first piece followed by the delimiter and ends with the last piece |
| `Paths.Candidate` | src/TemplateRenderer.php:111-123 | the path before the existence check: it fails iff the name holds `::` and its key (which holds no `::`) is unregistered, and then with that key; every path ends in the files extension |
| `Paths.Resolve` | src/TemplateRenderer.php:109-130 | a path is returned only if the file exists, it is then the candidate path, and a missing file is reported with that path |
| `Paths.ResolveDefault` | src/TemplateRenderer.php:121-127 | a name without `::` resolves to `defaultDirectory + "/" + name + filesExtension`, or fails as not found when that file does not exist |
| `Paths.ResolveNamespaced` | src/TemplateRenderer.php:112-120 | for a name whose first `::` is at i: namespace `name[..i]` unregistered throws; otherwise the path is the root + "/" + the remaining `::`-pieces joined with "/" + the extension, returned iff it exists |
| `Paths.UndefinedNamespaceIgnoresFiles` | src/TemplateRenderer.php:116-120 | an unregistered namespace fails the same way whatever the file system holds |
| `Paths.NamespaceKeyHasNoDelimiter` | src/TemplateRenderer.php:113-114 | the namespace key holds no `::` and the name is the key, `::` and the rest joined back |
| `Renderer.TemplateRenderer.GetTemplatePath` | src/TemplateRenderer.php:109-130 | the renderer's lookup with its own settings: success iff the candidate exists, the candidate returned, the namespace error or the not-found error otherwise |
| `Manager.TemplateManager.PathByName` | src/TemplateManager.php:148-169 | the same rules with the manager's settings: unregistered namespace throws regardless of files; otherwise the candidate iff it exists, else not found |
| `OutputBuffering.Push` | src/TemplateRenderer.php:168 | ob_start puts one empty buffer on top and leaves the others and the real output alone |
| `OutputBuffering.Write` | src/TemplateRenderer.php:181 | echo appends to the innermost buffer, or to the real output when none is open; the number of buffers and every other buffer stay as they were |
| `OutputBuffering.Pop` | src/TemplateRenderer.php:170 | ob_get_clean returns the innermost buffer and removes it, keeping the rest; with none open it returns "" and changes nothing |
| `OutputBuffering.PushWritePop` | src/TemplateRenderer.php:168-170 | a buffer opened, written and closed returns exactly what was written and leaves the other buffers and the real output unchanged |
| `OutputBuffering.OutputBuffer.constructor` | src/TemplateRenderer.php:168 | the process starts with no buffer open and nothing printed |
| `OutputBuffering.OutputBuffer.Start` | src/TemplateRenderer.php:232 | ob_start pushes one empty buffer |
| `OutputBuffering.OutputBuffer.Echo` | src/TemplateRenderer.php:181 | echo appends to the innermost buffer, or to the real output when none is open |
| `OutputBuffering.OutputBuffer.GetClean` | src/TemplateRenderer.php:271 | ob_get_clean returns and removes the innermost buffer, or returns "" (false) and changes nothing when none is open |
| `Capture.Section` | src/TemplateRenderer.php:204-211 | the stored text of a set section, the default otherwise |
| `Capture.Start` | src/TemplateRenderer.php:218-233 | "content" is refused; a refused start changes nothing; an accepted one records the name and opens one buffer |
| `Capture.Append` | src/TemplateRenderer.php:240-245 | succeeds exactly when start would and opens the same buffers; the append flag ends up raised either way, nothing else differs from start |
| `Capture.Prepend` | src/TemplateRenderer.php:252-257 | succeeds exactly when start would and opens the same buffers; the prepend flag ends up raised either way, nothing else differs from start |
| `Capture.Stop` | src/TemplateRenderer.php:263-284 | throws iff no capture is active, then changing nothing; otherwise clears the capture and flags and stores the section; it never prints, it only closes innermost buffers |
| `Capture.SetLayout` | src/TemplateRenderer.php:191-195 | records the layout name and data and changes nothing else |
| `Capture.StopIntended` | src/TemplateRenderer.php:263-284 | stop with a single drain: throws iff no capture is active; otherwise closes exactly the capture's buffer |
| `Capture.IntendedCaptureRoundTrip` | src/TemplateRenderer.php:240-284 | with a single drain, append then stop extends the section by the captured text, and prepend then stop puts it in front; the buffers are as before |
| `Capture.IntendedAppendPrependExample` | src/TemplateRenderer.php:240-284 | with a single drain, start s, "A", stop, append s, "B", stop gives "AB", and with prepend "BA" |
| `Capture.StartReserved` | src/TemplateRenderer.php:220-224 | start("content") always throws and changes nothing |
| `Capture.StartOutcome` | src/TemplateRenderer.php:218-233 | start succeeds iff the name is not "content" and no truthy capture is active; a failed start changes nothing; a successful one records the name and pushes exactly one buffer |
| `Capture.FalsyNameDoesNotBlockNesting` | src/TemplateRenderer.php:226-228 | an active capture named "" or "0" does not block a second start, which replaces the name and stacks a second buffer |
| `Capture.FailedAppendKeepsFlag` | src/TemplateRenderer.php:240-257 | when start throws inside append/prepend, the append/prepend flag stays raised and nothing else changes |
| `Capture.FailedAppendTurnsNextCaptureIntoAppend` | src/TemplateRenderer.php:240-245 | after a failed append, a plain start/stop on an existing section takes the append branch |
| `Capture.StopIdle` | src/TemplateRenderer.php:265-269 | stop without an active capture throws and changes nothing |
| `Capture.StopResets` | src/TemplateRenderer.php:271-283 | a successful stop clears the capture name and both flags, keeps the layout, and changes sections only at the stopped name |
| `Capture.StopReplace` | src/TemplateRenderer.php:277-278 | in replace mode or without prior content, stop stores the innermost buffer's text and pops exactly that buffer |
| `Capture.StopAppendDrainsEnclosing` | src/TemplateRenderer.php:273-274 | append onto prior content stores old value + the second drained buffer (the capture's own text is dropped); the old value stays a prefix; append wins when both flags are set |
| `Capture.StopPrependDrainsEnclosing` | src/TemplateRenderer.php:275-276 | prepend onto prior content stores the second drained buffer + old value; the old value stays a suffix |
| `Capture.CaptureRoundTrip` | src/Template.php:155-221 | start, write t, stop in replace mode stores exactly t, restores the buffers, and section() then returns t |
| `Capture.AppendRoundTrip` | src/Template.php:177-221 | append, write t, stop onto an existing section extends it by the enclosing buffer's text, which is consumed, whatever t is |
| `Engine.Act` | src/TemplateRenderer.php:169-182 | one call of a running body: printing or registering a layout never throws and never touches the sections or the capture; a layout call prints nothing |
| `Engine.Run` | src/TemplateRenderer.php:169 | the calls of a body in order: the empty body does nothing, and a body throws only through a capture call or a nested render |
| `Engine.Partial` | src/TemplateRenderer.php:159-171 | renderPartial returns text only for a template that resolves to an existing file; when resolution fails nothing changes |
| `Engine.RendererRender` | src/TemplateRenderer.php:139-149 | the template must resolve; a body that throws is reported unchanged; a successful render with a layout had that layout resolve |
| `Engine.TemplateRender` | src/Template.php:73-84 | Template::render succeeds only for a template that resolves to an existing file |
| `Engine.RunConcat` | src/TemplateRenderer.php:169 | running two scripts in sequence is running their concatenation; an exception in the first skips the second |
| `Engine.LayoutsKeepSections` | src/TemplateRenderer.php:191-195 | layout() calls change only the layout name and data |
| `Engine.RunPassive` | src/TemplateRenderer.php:169 | a body that only echoes and sets layouts never throws, keeps the last layout, and writes its text into the innermost buffer in one piece |
| `Engine.PrintedDependsOnSections` | src/TemplateRenderer.php:204-211 | what such a body prints depends only on the sections it reads |
| `Engine.CaptureScript` | src/TemplateRenderer.php:218-284 | start(name) ... stop() around such a body stores exactly the printed text under name and leaves the buffers as they were |
| `Engine.PartialResolutionFailure` | src/TemplateRenderer.php:159-161 | a resolution failure ends renderPartial before any buffer is opened |
| `Engine.PartialOfPassive` | src/TemplateRenderer.php:159-171 | renderPartial of such a body returns exactly its printed text and leaves the buffers unchanged |
| `Engine.RenderWithoutLayout` | src/TemplateRenderer.php:139-149 | without a layout both render variants return the partial output of the body |
| `Engine.RendererAppliesOneLayout` | src/TemplateRenderer.php:143-146 | with a layout, content is stored (bypassing the reserved-name check) beside the body's sections and the result is one renderPartial of the layout on the same object |
| `Engine.TemplateLayoutSeesOnlyContent` | src/Template.php:77-80 | Template::render's layout output depends only on the body's output, layout and data, never on the body's other sections |
| `Engine.TemplateRenderWithoutLayout` | src/Template.php:75-83 | when the body throws or sets no layout, Template::render is the partial |
| `Engine.ActInsert` | src/TemplateRenderer.php:179-182 | an insert echoes the partial's text, or passes its exception on with the state the partial left |
| `Engine.TemplateLayoutStep` | src/Template.php:77-80 | one layout level is the render of a fresh page whose only section is content |
| `Engine.TemplateRenderKeepsCallerPage` | src/Template.php:73-84 | Template::render leaves the caller's page as the body left it |
| `Scenarios.ChildPartial` | src/Template.php:94-106 | a body that sets layout "mid" and prints "X" renders to "X" and records the layout |
| `Scenarios.MidPartial` | src/Template.php:94-106 | a layout body printing "[" content "]" and setting layout "base" |
| `Scenarios.BasePartial` | src/Template.php:94-106 | a layout body printing "<" content ">" |
| `Scenarios.TemplateAppliesChainedLayouts` | src/Template.php:73-84 | Template::render applies chained layouts: child, mid, base give "<[X]>" |
| `Scenarios.RendererAppliesOneLayoutLevel` | src/TemplateRenderer.php:139-149 | TemplateRenderer::render of the same templates gives "[X]" and leaves layout "base" recorded but unapplied |
| `Scenarios.MidRendersBase` | src/Template.php:73-84 | the mid layout holding content "X" renders through base to "<[X]>" |
| `Scenarios.BaseRenders` | src/Template.php:73-84 | the base layout holding content "[X]" renders to "<[X]>" |
| `Scenarios.TitledCapture` | src/TemplateRenderer.php:218-284 | start "title", echo "T", stop stores "T" and restores the buffers |
| `Scenarios.TitledRun` | src/TemplateRenderer.php:169 | the titled body stores "T" as title and registers layout "page" |
| `Scenarios.TitledPartial` | src/TemplateRenderer.php:159-171 | a body capturing "title" and setting layout "page" returns "" and leaves title = "T" |
| `Scenarios.RendererLayoutSeesBodySections` | src/TemplateRenderer.php:143-146 | under TemplateRenderer::render the layout reads the body's "title" section |
| `Scenarios.TemplateLayoutMissesBodySections` | src/Template.php:78-80 | under Template::render the layout only has content and prints the default |
| `Scenarios.PageRendersDefault` | src/Template.php:73-84 | the page layout on a fresh page holding only content prints the default "none" |
| `Scenarios.AppendExampleAsWritten` | src/TemplateRenderer.php:271-276 | start s, "A", stop, append s, "B", stop inside a buffer holding p stores "A" + p and closes both buffers |
| `Renderer.TemplateRenderer.constructor` | src/TemplateRenderer.php:17-47 | a new renderer has the default settings and an empty page |
| `Renderer.TemplateRenderer.SetFilesExtension` | src/TemplateRenderer.php:86-89 | writes the extension, nothing else |
| `Renderer.TemplateRenderer.SetDefaultDirectory` | src/TemplateRenderer.php:92-95 | writes the default directory, nothing else |
| `Renderer.TemplateRenderer.SetNamespaces` | src/TemplateRenderer.php:97-100 | writes the namespace map, nothing else |
| `Renderer.TemplateRenderer.SetOptions` | src/TemplateRenderer.php:54-80 | the loop leaves exactly the settings and result of `Options.SetOptionsOf` for the renderer, page untouched |
| `Renderer.TemplateRenderer.Section` | src/TemplateRenderer.php:204-211 | the stored value when the section is set, the default otherwise |
| `Renderer.TemplateRenderer.Layout` | src/TemplateRenderer.php:191-195 | records the layout name and data, nothing else |
| `Renderer.TemplateRenderer.Start` | src/TemplateRenderer.php:218-233 | new fields, buffers and result are those of `Capture.Start` |
| `Renderer.TemplateRenderer.Append` | src/TemplateRenderer.php:240-245 | new fields, buffers and result are those of `Capture.Append` |
| `Renderer.TemplateRenderer.Prepend` | src/TemplateRenderer.php:252-257 | new fields, buffers and result are those of `Capture.Prepend` |
| `Renderer.TemplateRenderer.Stop` | src/TemplateRenderer.php:263-284 | new fields, buffers and result are those of `Capture.Stop`, double drain included |
| `Renderer.TemplateRenderer.Perform` | src/TemplateRenderer.php:169 | one call of a running body does what `Engine.Act` says |
| `Renderer.TemplateRenderer.RunScript` | src/TemplateRenderer.php:169 | the body's calls in order, stopping at the first exception, as `Engine.Run` |
| `Renderer.TemplateRenderer.RenderPartial` | src/TemplateRenderer.php:159-171 | state and result of `Engine.Partial`: resolve, open a buffer, run the body, return the buffer |
| `Renderer.TemplateRenderer.Insert` | src/TemplateRenderer.php:179-182 | echoes the partial's output, or passes its exception on |
| `Renderer.TemplateRenderer.Render` | src/TemplateRenderer.php:139-149 | state and result of `Engine.RendererRender`; settings unchanged |
| `Templates.Template.constructor` | src/Template.php:32-35 | a new template reads the given manager and has an empty page |
| `Templates.Template.Section` | src/Template.php:141-148 | the stored value when the section is set, the default otherwise |
| `Templates.Template.Layout` | src/Template.php:128-132 | records the layout name and data, nothing else |
| `Templates.Template.Start` | src/Template.php:155-170 | new fields, buffers and result are those of `Capture.Start` |
| `Templates.Template.Append` | src/Template.php:177-182 | new fields, buffers and result are those of `Capture.Append` |
| `Templates.Template.Prepend` | src/Template.php:189-194 | new fields, buffers and result are those of `Capture.Prepend` |
| `Templates.Template.Stop` | src/Template.php:200-221 | new fields, buffers and result are those of `Capture.Stop`, double drain included |
| `Templates.Template.Perform` | src/Template.php:104 | one call of a running body does what `Engine.Act` says with the manager's settings |
| `Templates.Template.RunScript` | src/Template.php:104 | the body's calls in order, stopping at the first exception, as `Engine.Run` |
| `Templates.Template.Partial` | src/Template.php:94-106 | state and result of `Engine.Partial` with the path from the manager's `pathByName` |
| `Templates.Template.Insert` | src/Template.php:116-119 | echoes the partial's output, or passes its exception on |
| `Templates.Template.RenderLayout` | src/Template.php:78-80 | a new Template on the same manager holding only content renders the layout; buffers and result are those of `Engine.TemplateRender` on that fresh page |
| `Templates.Template.Render` | src/Template.php:73-84 | state and result of `Engine.TemplateRender`: the layout is rendered by a new Template holding only content, recursively |
| `Manager.SelectEngine` | src/TemplateManager.php:179-188 | the PHP engine iff ".php" occurs anywhere in the name, Twig otherwise; the final throw is unreachable |
| `Manager.SelectEngineAnywhere` | src/TemplateManager.php:181 | ".php" anywhere in the name, not only as a suffix, selects the PHP engine |
| `Manager.TemplateManager.constructor` | src/TemplateManager.php:18-40 | a new manager has the default settings |
| `Manager.TemplateManager.SetUsePackageDirs` | src/TemplateManager.php:80-83 | writes the files extension, nothing else |
| `Manager.TemplateManager.SetFilesExtension` | src/TemplateManager.php:88-91 | writes the files extension, nothing else |
| `Manager.TemplateManager.GetFilesExtension` | src/TemplateManager.php:96-99 | returns the current extension |
| `Manager.TemplateManager.SetDefaultDirectory` | src/TemplateManager.php:104-107 | writes the default directory, nothing else |
| `Manager.TemplateManager.GetDefaultDirectory` | src/TemplateManager.php:112-115 | returns the current default directory |
| `Manager.TemplateManager.SetNamespaces` | src/TemplateManager.php:120-123 | writes the namespace map, nothing else |
| `Manager.TemplateManager.GetNamespaces` | src/TemplateManager.php:128-131 | returns the current namespace map |
| `Manager.TemplateManager.SetOptions` | src/TemplateManager.php:47-75 | the loop leaves exactly the settings and result of `Options.SetOptionsOf` for the manager |
| `Manager.SettersThenGetters` | src/TemplateManager.php:80-131 | each getter returns the last value its setters wrote, and writing one setting leaves the others alone |
| `Options.SetterFor` | src/TemplateManager.php:60-63 | `set` + key, compared without case, selects setFilesExtension, setDefaultDirectory or setNamespaces on either class, and setUsePackageDirs on the manager only, each iff the name matches; no setter iff none matches |
| `Options.SettersDistinct` | src/TemplateManager.php:60-61 | no key matches both setFilesExtension and setUsePackageDirs |
| `Options.ApplySetter` | src/TemplateManager.php:80-123 | a setter succeeds iff its value has the declared type and then writes its one setting; setUsePackageDirs writes the extension |
| `Options.SetOptionsOf` | src/TemplateManager.php:59-74 | succeeds iff every entry is accepted; a failure names a refused key, unknown or of the wrong type |
| `Options.AcceptedAnywhere` | src/TemplateManager.php:61-62 | whether an entry is accepted does not depend on the current settings |
| `Options.SetOptionsConcat` | src/TemplateManager.php:59-73 | setOptions of a + b is setOptions of a followed by setOptions of b, unless a throws |
| `Options.LastKeyWins` | src/TemplateManager.php:59-62 | of keys writing the extension, the last one decides its value |
| `Options.UnknownKeyThrows` | src/TemplateManager.php:63-72 | a key without setter throws at once and keeps what earlier keys wrote |
| `Options.UsePackageDirsSetter` | src/TemplateManager.php:80 | key usePackageDirs names a setter of the manager, none of the renderer |
| `Options.UsePackageDirsOnlyOnManager` | src/TemplateManager.php:80-83 | setOptions with usePackageDirs writes the extension on the manager and throws on the renderer |
| `Filters.EscapeChar` | src/TemplateRenderer.php:320 | the ENT_QUOTES replacement of one character: never a raw `<`, `>`, `"` or `'`, and the character itself exactly when it is not special |
| `Filters.HtmlSpecialChars` | src/TemplateRenderer.php:327 | no raw `<`, `>`, `"` or `'` in the result, never shorter than the input, plain text unchanged |
| `Filters.ConcatNoRaw` | src/TemplateRenderer.php:327 | joining two escaped texts keeps them free of raw characters |
| `Filters.DecodeEscapeChar` | src/TemplateRenderer.php:320 | each character's escape decodes back to the character |
| `Filters.DecodeEscape` | src/TemplateRenderer.php:327 | decoding the five entities undoes htmlspecialchars for every input |
| `Filters.EscapeInjective` | src/TemplateRenderer.php:327 | two different inputs never escape to the same text |
| `Filters.Lookup` | src/Template.php:232-240 | own methods e/escape (any case) resolve to htmlspecialchars; any other registered name resolves to its registered function; unknown iff neither |
| `Filters.Chain` | src/Template.php:231-243 | fails iff some name is unknown, and then with the first unknown name |
| `Filters.FirstUnknownShift` | src/Template.php:231-240 | the first unknown name moves one place on when a known name is put in front |
| `Filters.ChainConcat` | src/Template.php:231-243 | a chain split in two runs as the whole chain, left to right |
| `Filters.BatchSingle` | src/Template.php:231-243 | a one-name chain applies that function once, or throws when it is unknown |
| `Filters.NoOccurrenceSplit` | src/Template.php:231 | a, the pipe and b split on the pipe into exactly [a, b] when neither a nor b holds a pipe |
| `Filters.BatchPair` | src/Template.php:229-244 | the chain a-pipe-b applies a, then b to its output |
| `Filters.BatchOf` | src/Template.php:229-244 | batch is the chain of the pieces between pipes; text without a pipe is a chain of one function |
| `Filters.BatchE` | src/Template.php:229-244 | the chain `e` escapes its input once |
| `Filters.Batch` | src/Template.php:229-244 | the loop's result equals `Filters.BatchOf`, the chain of the pieces between pipes |
| `Filters.Escaped` | src/Template.php:252-265 | the result has no raw special characters; the chain runs only for a truthy chain and its exception passes through |
| `Filters.EscapedDecodes` | src/Template.php:252-265 | a successful escape decodes back to the chain's output (or to the input without chain) |
| `Filters.AmpersandEscapes` | src/Template.php:264 | htmlspecialchars turns "&" into "&amp;" and "&amp;" into "&amp;amp;" |
| `Filters.EscapeThroughE` | src/Template.php:260-264 | a chain naming `e` escapes twice: "&" gives "&amp;amp;" |
| `Filters.Escape` | src/Template.php:252-265 | the method's result equals `Filters.Escaped` |
| `Filters.E` | src/Template.php:273-276 | e(x, f) equals escape(x, f) |

`batch`, `escape` and `e` are the same code in src/TemplateRenderer.php:292-339
and src/Template.php:229-276; the `Filters` members model both.

## Findings

| source | as written | input that shows it | evidently intended | confidence | as-written member | corrected member |
|---|---|---|---|---|---|---|
| src/TemplateRenderer.php:271-276 (the same in src/Template.php:208-213) | stop() drains the capture's buffer, and when appending or prepending to an existing section drains a second buffer and stores that instead | start("s"), echo "A", stop(), append("s"), echo "B", stop() inside an open buffer holding p: the section becomes "A" + p, "B" is lost and the enclosing buffer is closed | the section becomes "AB" ("BA" with prepend) and only the capture's buffer is closed | high; not executed | `Scenarios.AppendExampleAsWritten` | `Capture.IntendedAppendPrependExample` |

The rest of the model, and both classes, keep `Capture.Stop` as written.
`Capture.StopIntended` and the lemmas about it state the corrected stop.

## Left out

- Widgets (`widget()`, the service container and `getContainer`): they instantiate arbitrary classes found at run time.
- Executing template files (`require`, `extract`): a body is the abstract script that `FileSystem.body` gives for a path and data; data values are strings.
- `file_exists`: the predicate `FileSystem.fileExists`.
- The Twig adapter, `PhpTemplate`, the factories and the configuration provider: only the engine choice of `TemplateManager::render` is modelled.
- `Template::getTemplatePath` (src/Template.php:44-64) is never called; it follows the same rule as `Paths.Resolve`.
- The manager that `Template` receives is declared as a `TemplateRenderer` in PHP, but `pathByName` exists only on `TemplateManager`; the model gives `Template` a `TemplateManager`.
- The options and container arguments of the constructors: a constructor followed by `SetOptions` has the same effect.
- `setOptions` with a non-array argument and the key `options` (which re-enters `setOptions` with a nested array): option values are a string or a string map.
- Type coercion of scalars passed to the string setters, and namespace maps whose values are not strings.
- `Filters.Lookup`: of the object's own methods only `e` and `escape` are resolved in a chain; naming `section`, `start`, `render` and the others would call them with the value, which is not modelled. Registry names are compared exactly, while PHP compares function names without case.
- `Filters.HtmlSpecialChars`: ENT_SUBSTITUTE's replacement of invalid UTF-8 does not arise, because text is a sequence of characters rather than bytes.
- `section($name)` without a default returns null in PHP; the model always takes a string default, and null is modelled as "", which echoes the same.
- A body that calls `render()` on its own object, and recursion deeper than the `fuel` argument: fuel bounds nested inserts and layout levels, and running out is reported as `OutOfFuel`, which PHP does not have.
