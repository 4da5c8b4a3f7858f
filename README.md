# telers core, modelled in Dafny

telers is a Telegram Bot API framework written in Rust. This project models its deterministic, sequential core and proves properties of that model:

- **FSM storage and keying.** The in-memory storage keeps a stack of states and a data map per key. The Redis key builder and its states list and data map are modelled over an abstract store. The model also covers `StorageKey` and the FSM-context middleware's key resolution.
- **Dispatch.** The repository holds three generations of the dispatch engine: `src/dispatcher/*`, `src/*` and `telers/*`. Each is modelled as written, not merged with the others, with one exception: the `src/*` state filter is checked against the `src/dispatcher/*` FSM-context middleware. That is the only FSM-context middleware among the modelled files, so this pairing crosses generations (see "## Findings"). The model covers:
  - handler objects and their filters;
  - observer `trigger` with its Handled/Unhandled/Rejected outcome;
  - inner-middleware chains and simple (startup/shutdown) observers;
  - router propagation through outer middlewares, the update observer and sub-routers;
  - inheritance of inner middlewares down the router tree;
  - resolution of the used update types;
  - the context-writing outer middlewares;
  - the dispatcher builders and the offset rule of the polling loop.
- **Filters.** `Text`, `State`, `User` and `Command` (with `CommandObject::extract`), and the `And`/`Or`/`Invert` combinators.
- **Argument extraction.** The extractors for `Option`, `Result`, `()` and tuples, including the polled tuple future. Also keyed and keyless lookup in the request context, and conversion of an update into its payload, which fails on the wrong kind.
- **Event types.** The accessors of `Update`, `Message` and `UpdateKind` with their priority rules, and the `ContentType` and `UpdateType` tables.
- **Text formatting.** Splicing an entity into a text, HTML and Markdown escaping, the HTML decoration, the accumulating text `Builder`, and UTF-16 encoding and decoding.
- **Utilities.**
  - The Bot API response check.
  - API server URL templates and file path wrappers.
  - The hand-written JSON part serializer.
  - `InputFile` attach rules, the stream cell and the file read loop.
  - The code generator's field-type classifier.
  - Token-stream trimming.
  - The attribute parsers of the `FromEvent` and `FromContext` derive macros.

The request context is modelled as a map from string keys to a tagged value; a tag that does not match stands for a failed downcast. Values that change in place are classes whose methods state the whole new state. Examples are the memory storage, the request context, observers, routers, the text builder, the JSON part serializer and the stream file. Pure code is datatypes, functions and lemmas.

Some core files have a twin of the same shape, which the same members model:
- `src/client/session/base.rs` shares the response check of `telers/src/client/session/base.rs`.
- `src/dispatcher/event/handler.rs` shares the handler object of `src/dispatcher/event/telegram/handler.rs`.
- `src/dispatcher/event/simple/observer.rs` and `src/dispatcher/event/event_observer.rs` share the simple observer's loop of `src/event/simple/observer.rs`.

## Model

| member | source | states |
|---|---|---|
| ClientSession.ErrorOfStatus | telers/src/client/session/base.rs:181-210 | 400, 401, 403, 404, 409 and 413 map to their own error kinds; 500 is a restart exactly when the message mentions "restart", a server error otherwise; any other code is a plain error carrying the message |
| ClientSession.CheckResponse | telers/src/client/session/base.rs:120-211 | a success status (200..=226) with `ok` passes exactly when a result is present; every other response needs a description, and its error is retry-after, then migrate-to-chat, then the status code's error |
| ClientSession.ErrorPrecedence | telers/src/client/session/base.rs:164-180 | with a description, `retry_after` decides over `migrate_to_chat_id`, which decides over the status code |
| ClientSession.StatusCodeErrors | telers/src/client/session/base.rs:181-190 | the six status codes with an error kind of their own, each carrying the message |
| ClientSession.ErrorStatusFails | telers/src/client/session/base.rs:125-141 | a status outside 200..=226 never passes, whatever the body says; a success status with `ok` and a result always passes |
| ClientSession.RestartExample | telers/src/client/session/base.rs:191-197 | a 500 answer whose message mentions a restart is `RestartingTelegram`, one that does not is `ServerError` |
| ClientSession.MakeRequest | telers/src/client/session/base.rs:223-284 | a send failure or a parse failure is returned as such; otherwise the parsed response is returned exactly when the check passes, and the check's error otherwise |
| ClientSession.MakeRequestAndGetResult | telers/src/client/session/base.rs:296-311 | the result is the response's result whenever the request succeeds, so the `unwrap` never panics |
| UrlTemplate.TrimEndMatches | telers/src/client/telegram.rs:127-128 | the result is a prefix of the input that does not end in `c`, and everything cut off is `c` |
| UrlTemplate.TrimEndMatchesIgnoresTrailing | telers/src/client/telegram.rs:127-128 | one more trailing `c` on the input gives the same result |
| UrlTemplate.TrimEndMatchesIdempotent | telers/src/client/telegram.rs:127-128 | trimming an already trimmed text changes nothing |
| UrlTemplate.ReplaceAll | telers/src/client/telegram.rs:163-179 | `str::replace` as the URL builders use it: a text without the pattern's first character is kept |
| UrlTemplate.ReplaceAllPlainPrefix | telers/src/client/telegram.rs:163-179 | a start holding no first character of the pattern is copied unchanged and the rest is replaced on its own |
| UrlTemplate.ReplaceAllAtPattern | telers/src/client/telegram.rs:163-179 | an occurrence at the start is replaced and the search resumes after it, not inside the replacement |
| UrlTemplate.ReplaceAllNoMatch | telers/src/client/telegram.rs:163-179 | a text with no occurrence is left unchanged |
| UrlTemplate.FillFirst | telers/src/client/telegram.rs:163-166 | the first placeholder of a template is filled in, and the rest is kept |
| UrlTemplate.FillSecond | telers/src/client/telegram.rs:163-166 | the second placeholder is filled in once the first one was |
| UrlTemplate.FillTwo | telers/src/client/telegram.rs:163-179 | two successive replacements fill a two-placeholder template with the two values in their places |
| UrlTemplate.ReplaceAllWhole | telers/src/client/telegram.rs:163-179 | a text that is exactly the pattern becomes the replacement |
| UrlTemplate.FillTwice | telers/src/client/telegram.rs:163-179 | a placeholder that stands twice is filled in at both places |
| UrlTemplate.FillPlaceholderWithPlaceholder | telers/src/client/telegram.rs:163-166 | a first value that is the second placeholder is filled in again by the second replacement |
| ClientTelegram.ToLocal | telers/src/client/telegram.rs:56-97 | the bare wrapper returns the path itself; the diff wrapper answers exactly when `diff_paths` against the server base does, with that relative path joined to the local base |
| ClientTelegram.ToServer | telers/src/client/telegram.rs:56-104 | the bare wrapper returns the path itself; the diff wrapper joins the path's rest below the local base to the server base, and answers exactly when `diff_paths` does |
| ClientTelegram.FilesDiffRoundTrip | telers/src/client/telegram.rs:91-104 | a file below the server base maps below the local base, and a file below the local base maps back below the server base |
| ClientTelegram.New | telers/src/client/telegram.rs:120-133 | both URL templates lose all their trailing slashes and nothing else; `is_local` and the wrapper are kept |
| ClientTelegram.NewIgnoresTrailingSlash | telers/src/client/telegram.rs:122-133 | a template with one more trailing slash gives the same server |
| ClientTelegram.ApiUrl | telers/src/client/telegram.rs:162-167 | a template without placeholders is the URL itself |
| ClientTelegram.FileUrl | telers/src/client/telegram.rs:174-179 | a template without placeholders is the URL itself |
| ClientTelegram.Server | telers/src/client/telegram.rs:183-203 | the production and test servers use the Bot API templates (the test ones with `/test/`), are not local, and use the bare wrapper |
| ClientTelegram.PrefixesArePlain | telers/src/client/telegram.rs:187-199 | the fixed parts of the templates hold no placeholder |
| ClientTelegram.ServerApiUrl | telers/src/client/telegram.rs:162-239 | a method's URL is the Bot API prefix, the token, `/` (or `/test/`), then the method name, for every token without `{` |
| ClientTelegram.ServerFileUrl | telers/src/client/telegram.rs:174-268 | a file's URL is the file prefix, the token, `/` (or `/test/`), then the path, for every token without `{` |
| ClientTelegram.TokenFilledFirst | telers/src/client/telegram.rs:163-166 | the token is substituted before the method name, so a token that is `{method_name}` ends up as the method name too |
| ClientTelegram.DefaultTemplateShape | telers/src/client/telegram.rs:183-190 | the default API template is the prefix, `{token}`, `/`, `{method_name}` |
| SrcClientTelegram.Resolve | src/client/telegram.rs:79-82 | with an absolute first base or an absolute path the second base plays no part |
| SrcClientTelegram.ToLocalAsWritten | src/client/telegram.rs:49-88 | the bare wrapper returns the path itself; the simple wrapper resolves it through the server base then the local base, as written |
| SrcClientTelegram.ToServerAsWritten | src/client/telegram.rs:49-92 | the bare wrapper returns the path itself; the simple wrapper resolves it through the local base then the server base, as written |
| SrcClientTelegram.ToLocalIgnoresLocalBase | src/client/telegram.rs:79-88 | with an absolute server base, `to_local` is just the server base joined with the path, whatever the local base is |
| SrcClientTelegram.SimpleWrapperCounterexample | src/client/telegram.rs:79-88 | a file below the server's data directory stays where it is instead of moving below the local directory |
| SrcClientTelegram.Below | src/client/telegram.rs:59-92 | a path found below a base is relative and joins back to the path |
| SrcClientTelegram.BelowJoin | src/client/telegram.rs:59-92 | every relative path joined below a base is found again |
| SrcClientTelegram.ToLocal | src/client/telegram.rs:59-92 | corrected wrapper: the bare wrapper keeps the path |
| SrcClientTelegram.ToServer | src/client/telegram.rs:59-92 | corrected wrapper: the bare wrapper keeps the path |
| SrcClientTelegram.SimpleRoundTrip | src/client/telegram.rs:59-92 | corrected wrapper: a file below the server base moves below the local base and back to where it was |
| SrcClientTelegram.New | src/client/telegram.rs:108-121 | both URL templates lose all their trailing slashes and nothing else |
| SrcClientTelegram.ApiUrl | src/client/telegram.rs:150-155 | a template without placeholders is the URL itself |
| SrcClientTelegram.FileUrl | src/client/telegram.rs:161-166 | a template without placeholders is the URL itself |
| SrcClientTelegram.Server | src/client/telegram.rs:169-189 | the production and test servers use the same templates as the later generation, are not local, and use the bare wrapper |
| SrcClientTelegram.SameUrlsAsLater | src/client/telegram.rs:108-166 | both generations build the same method and file URLs from the same templates |
| SrcClientTelegram.ServerUrls | src/client/telegram.rs:150-255 | the default and test servers' method and file URLs put the token and the name in their places |
| CodegenApi.ScalarClassifiers | telers-codegen/src/parser/api.rs:47-77 | "String" is a string, "Integer" an `i64` and "Float" an `f32` integer kind, "Boolean" any boolean and "True" the true one; each scalar name is recognised by exactly one classifier, any other name by none, and an `Array of` type by none |
| CodegenApi.IsArrayOfExamples | telers-codegen/src/parser/api.rs:269-274 | the tests' cases of `is_array_of`: arrays are recognised, plain names are not |
| CodegenApi.MultiTypeIsInputFile | telers-codegen/src/parser/api.rs:83-93 | true exactly for `[InputFile]`, `[InputFile, String]` and `[String, InputFile]` |
| CodegenApi.MultiTypeIsChatId | telers-codegen/src/parser/api.rs:100-106 | true exactly for `[Integer, String]` and `[String, Integer]` |
| CodegenApi.MultiTypeIsReplyMarkup | telers-codegen/src/parser/api.rs:114-120 | true exactly when the field is named `reply_markup` and does not have exactly one type, whatever the types are |
| CodegenApi.MultiTypeExamples | telers-codegen/src/parser/api.rs:276-341 | the tests' cases of the three special cases |
| CodegenApi.SpecialCasesDisjoint | telers-codegen/src/parser/api.rs:83-106 | no type list is both an input file and a chat id |
| CodegenApi.ReplaceFirst | telers-codegen/src/parser/api.rs:151 | a text that starts with the pattern loses that prefix; a text without the pattern is kept |
| CodegenApi.IdentifyFieldTypeAsWritten | telers-codegen/src/parser/api.rs:124-169 | the special cases are tried in the source's order (input file, chat id, reply markup); a one-type field gets one `Array` layer per `Array of ` prefix around the scalar or Telegram type of its innermost name; it is called only on fields it terminates on |
| CodegenApi.ArrayWithoutSpaceRecursesForever | telers-codegen/src/parser/api.rs:145-154 | a raw type that starts with `Array of` but not with `Array of ` passes the test yet is handed back unchanged to the recursive call |
| CodegenApi.BareArrayOfRecursesForever | telers-codegen/src/parser/api.rs:145-154 | the raw type `Array of` on its own is such a type, so the classifier as written never ends on it |
| CodegenApi.IdentifyFieldType | telers-codegen/src/parser/api.rs:124-169 | corrected classifier: the same special cases in the same order, and for a one-type field one `Array` layer per `Array of ` prefix around the classification of the innermost name, on every field with at most one type or a special case |
| CodegenApi.AsWrittenAgrees | telers-codegen/src/parser/api.rs:124-169 | on every field the code as written terminates on, the corrected classifier gives the same result |
| CodegenApi.NestedArrayExample | telers-codegen/src/parser/api.rs:343-547 | the tests' nested array of a scalar gives two `Array` layers around it |
| CodegenApi.OneTypeExamples | telers-codegen/src/parser/api.rs:343-547 | the tests' one-type fields named like a chat id or a reply markup are classified by their type, not as special cases |
| CodegenApi.InputFileExample | telers-codegen/src/parser/api.rs:343-547 | the tests' input file given as two types is the `InputFile` Telegram type |
| SrcContentType.AsStrInjective | src/enums/content_type.rs:66-117 | distinct variants have distinct wire names |
| SrcContentType.All | src/enums/content_type.rs:121-173 | `all()` has 49 entries, the one at position i being the i-th declared variant |
| SrcContentType.FieldOrder | src/enums/content_type.rs:208-273 | the 48 tested fields, in declaration order: the entries of `all()` before the final `Unknown` |
| SrcContentType.FirstPresentType | src/enums/content_type.rs:210-219 | the result is `Unknown` exactly when no listed field is set; otherwise it is the first listed type whose field is set |
| SrcContentType.ContentTypeOf | src/enums/content_type.rs:208-273 | the content type is `Unknown` exactly when no content field is set, and otherwise the first variant in declaration order whose field is set |
| SrcContentType.UnknownNotTested | src/enums/content_type.rs:221-271 | the tested order is every variant except `Unknown`, each exactly once |
| SrcContentType.IndexOfEntry | src/enums/content_type.rs:121-173 | the entry of `all()` at each position is the variant declared at that position |
| SrcContentType.EntryOfIndex | src/enums/content_type.rs:121-173 | every variant is the entry of `all()` at its own position |
| SrcContentType.AllDistinct | src/enums/content_type.rs:121-173 | `all()` lists no variant twice |
| SrcContentType.AllComplete | src/enums/content_type.rs:121-173 | `all()` lists every variant |
| SrcContentType.TextFirst | src/enums/content_type.rs:221-272 | a message with text is `Text` whatever else it carries; a message without any content field is `Unknown` |
| RequestContext.Downcast | src/dispatcher/middlewares/outer/fsm_context.rs:85-86 | a stored value downcasts to a type exactly when it has that type, and then to itself |
| RequestContext.Context.Get | src/dispatcher/middlewares/outer/fsm_context.rs:76-83 | a lookup finds a value exactly when the key is stored, and then it is the stored value |
| RequestContext.Context.Insert | src/dispatcher/middlewares/outer/fsm_context.rs:135-141 | the key now maps to the new value and every other key is unchanged |
| DispatcherHandler.HandlerCall | src/dispatcher/event/telegram/handler.rs:202-223 | the handler runs exactly when the arguments are extracted, and the response pairs the request with its answer; otherwise the extraction error is returned and the handler does not run |
| DispatcherHandler.AllPass | src/dispatcher/event/telegram/handler.rs:177-181 | true exactly when every filter accepts the request |
| DispatcherHandler.Check | src/dispatcher/event/telegram/handler.rs:173-182 | a handler passes exactly when every one of its filters accepts; with no filters it always passes |
| DispatcherHandler.HandlerObject.constructor | src/dispatcher/event/telegram/handler.rs:112-124 | a handler object holds the given service and filters |
| DispatcherHandler.HandlerObject.Filter | src/dispatcher/event/telegram/handler.rs:132-139 | the filter is appended after the others; the service is unchanged |
| DispatcherHandler.HandlerObject.NewService | src/dispatcher/event/telegram/handler.rs:150-163 | the service shares the object's service and filters |
| DispatcherHandler.Services | src/dispatcher/event/telegram/observer.rs:239-246 | one service per handler, in registration order |
| DispatcherInnerMiddleware.CallHandler | src/dispatcher/middlewares/inner/base.rs:43-58 | with a middleware left, it is called with the rest; with none, the handler service's response is returned as it is and its failure becomes an extraction error |
| DispatcherInnerMiddleware.PassThroughChain | src/dispatcher/middlewares/inner/base.rs:43-58 | a chain of middlewares that each just call the next one gives what the bare handler service gives |
| DispatcherObserver.Trigger | src/dispatcher/event/telegram/observer.rs:286-342 | the loop gives the outcome of the observer filters and then the handlers in order, each call going through the first middleware when there is one |
| DispatcherObserver.OutcomeFrom | src/dispatcher/event/telegram/observer.rs:302-341 | a result is about the event given; with no remaining handler whose filters accept it the event is unhandled, and a rejected or handled result needs one that does |
| DispatcherObserver.Outcome | src/dispatcher/event/telegram/observer.rs:286-342 | a result is about the event given; the observer filters' refusal rejects; when no handler's filters accept the event it is unhandled; a handled event passed some handler's filters |
| DispatcherObserver.PassOver | src/dispatcher/event/telegram/observer.rs:302-322 | handlers that fail their filters or skip are passed over without changing the outcome |
| DispatcherObserver.OutcomeCases | src/dispatcher/event/telegram/observer.rs:291-340 | refusing observer filters give Rejected; otherwise the first handler that passes and does not skip decides: its error is returned, a cancel gives Rejected, any other response gives Handled; when all are passed over the outcome is Unhandled |
| DispatcherObserver.Observer.constructor | src/dispatcher/event/telegram/observer.rs:113-129 | a new observer has its name, no handlers, no observer filters and no middlewares |
| DispatcherObserver.Observer.ToService | src/dispatcher/event/telegram/observer.rs:232-258 | the service keeps the name and middlewares and builds the common handler and every handler in order |
| DispatcherObserver.Observer.Register | src/dispatcher/event/telegram/observer.rs:157-171 | the handler with its filters comes after all the others; nothing else changes |
| DispatcherObserver.Observer.RegisterNoFilters | src/dispatcher/event/telegram/observer.rs:173-184 | the handler without filters comes after all the others; nothing else changes |
| DispatcherObserver.Observer.Filter | src/dispatcher/event/telegram/observer.rs:146-155 | the filter is added to the observer's own filters only; the handlers keep theirs |
| OldestObserver.TriggerWithoutSelf | src/dispatcher/event/telegram_observer.rs:153-191 | the loop gives the outcome of the common filters and then the handlers in order |
| OldestObserver.OutcomeFrom | src/dispatcher/event/telegram_observer.rs:160-190 | a result is about the event given and never rejected; with no remaining handler whose filters accept it the event is unhandled, and a handled result needs one that does |
| OldestObserver.Outcome | src/dispatcher/event/telegram_observer.rs:153-191 | a result is about the event given; it is rejected exactly when the common filters refuse; when no handler's filters accept the event it is unhandled |
| OldestObserver.PassOver | src/dispatcher/event/telegram_observer.rs:169-177 | handlers that fail their filters or skip are passed over without changing the outcome |
| OldestObserver.OutcomeCases | src/dispatcher/event/telegram_observer.rs:160-190 | refusing common filters give Rejected; otherwise the first handler that passes and does not skip decides: its error is returned, and any other response, a cancel included, gives Handled; when all are passed over the outcome is Unhandled |
| OldestObserver.CancelDiffers | src/dispatcher/event/telegram_observer.rs:172-181 | a handler that cancels after earlier ones skipped leaves the event Handled here, while the later observer (src/dispatcher/event/telegram/observer.rs:321-327) rejects it |
| OldestObserver.EventObserver.constructor | src/dispatcher/event/telegram_observer.rs:43-56 | a new observer has its name, no handlers and no common filters |
| OldestObserver.EventObserver.ToService | src/dispatcher/event/telegram_observer.rs:103-140 | the service keeps the name and builds the common handler and every handler in order |
| OldestObserver.EventObserver.Register | src/dispatcher/event/telegram_observer.rs:82-95 | the handler with its filters comes after all the others; nothing else changes |
| OldestObserver.EventObserver.Filter | src/dispatcher/event/telegram_observer.rs:74-80 | the filter is added to the common filters only |
| DispatcherDispatcher.DispatcherBuilder.constructor | src/dispatcher/dispatcher.rs:117-128 | the default builder has the default router and backoff, no bots, a polling timeout of 30 and no list of allowed updates |
| DispatcherDispatcher.DispatcherBuilder.MainRouter | src/dispatcher/dispatcher.rs:132-145 | the main router is replaced; every other field is kept |
| DispatcherDispatcher.DispatcherBuilder.Bot | src/dispatcher/dispatcher.rs:146-154 | the bot is appended after the others; every other field is kept |
| DispatcherDispatcher.DispatcherBuilder.Bots | src/dispatcher/dispatcher.rs:155-162 | the bots are appended in order; every other field is kept |
| DispatcherDispatcher.DispatcherBuilder.PollingTimeout | src/dispatcher/dispatcher.rs:163-170 | the polling timeout is set; every other field is kept |
| DispatcherDispatcher.DispatcherBuilder.Backoff | src/dispatcher/dispatcher.rs:171-178 | the backoff is replaced; every other field is kept |
| DispatcherDispatcher.DispatcherBuilder.AllowedUpdate | src/dispatcher/dispatcher.rs:179-190 | the name is appended to the list, which is created empty when there is none; every other field is kept |
| DispatcherDispatcher.DispatcherBuilder.AllowedUpdates | src/dispatcher/dispatcher.rs:191-197 | the list is replaced by the given names; every other field is kept |
| DispatcherDispatcher.DispatcherBuilder.Build | src/dispatcher/dispatcher.rs:198-208 | the dispatcher carries every field of the builder unchanged |
| DispatcherDispatcher.AddAllowed | src/dispatcher/dispatcher.rs:179-197 | after any call there is a list; a single name is appended to the list (or to an empty one), a list of names replaces it |
| DispatcherDispatcher.AllowedAfterCalls | src/dispatcher/dispatcher.rs:179-197 | after a sequence of calls the list is the names of the last `allowed_updates` call followed by every single name given after it; with no such call it is the single names; with no call at all there is no list |
| DispatcherDispatcher.ApplyAllowCalls | src/dispatcher/dispatcher.rs:179-197 | applying the calls in order leaves the list the function above describes, and the other fields as they were |
| DispatcherDispatcher.FeedUpdate | src/dispatcher/dispatcher.rs:252-275 | the update fails exactly when its type cannot be told, and then never reaches the router; otherwise the router's result for that type and the update with an empty context is returned |
| DispatcherDispatcher.ListenUpdates | src/dispatcher/dispatcher.rs:293-365 | one `getUpdates` request per answer, each with the offset one past the last update of the last non-empty batch before it; every update is sent on in order; failures set the `failed` flag and a non-empty batch clears it |
| DispatcherRouter.PrependObservers | src/dispatcher/router.rs:218-258 | every observer gets the given middlewares of its type ahead of its own, and nothing else changes |
| DispatcherRouter.WithInherited | src/dispatcher/router.rs:218-258 | the router keeps its name, its number of sub-routers and its startup and shutdown observers |
| DispatcherRouter.RegisterInSubRouter | src/dispatcher/router.rs:218-258 | the recursive registration leaves the router with the middlewares in front of its observers' and of every router below it |
| DispatcherRouter.InnerOf | src/dispatcher/router.rs:218-230 | the inner middlewares of each observer, as they stand |
| DispatcherRouter.InheritedEverywhere | src/dispatcher/router.rs:218-264 | every router below the included one, at any depth, gets the same middlewares ahead of its own, while its handlers, filters and outer middlewares stay |
| DispatcherRouter.Router.constructor | src/dispatcher/router.rs:129-165 | a new router has its name, no sub-routers, one empty observer per routed update type named after it, and empty startup and shutdown observers |
| DispatcherRouter.Router.ToValue | src/dispatcher/router.rs:129-165 | the router's value holds its name, sub-routers, observers and startup and shutdown observers |
| DispatcherRouter.Router.RegisterMiddleware | src/dispatcher/router.rs:633-670 | the middleware is appended to the observer of its type only; sub-routers already included keep what they had |
| DispatcherRouter.Router.IncludeRouter | src/dispatcher/router.rs:218-266 | the included router, with this router's current inner middlewares ahead of its own and of every router below it, is appended; this router's observers are unchanged |
| DispatcherRouter.Router.ResolveUsedUpdateTypes | src/dispatcher/router.rs:278-294 | the names of the observers that have handlers, over the whole tree, minus the skipped ones |
| DispatcherRouter.IncludeThenRegister | src/dispatcher/router.rs:257-266 | a middleware registered after an inclusion lands on the parent only, not on the router already included |
| DispatcherRouter.Resolve | src/dispatcher/router.rs:278-294 | the loop over the sub-routers and the observers gives the used names of the tree |
| DispatcherRouter.SkipRemoves | src/dispatcher/router.rs:278-294 | resolving with a skip set is resolving with none and removing the skipped names |
| DispatcherRouter.OwnSkipRemoves | src/dispatcher/router.rs:285-291 | the same for the router's own observers |
| DispatcherRouter.SubSkipRemoves | src/dispatcher/router.rs:280-284 | the same for the sub-routers |
| DispatcherRouter.InheritingKeepsNames | src/dispatcher/router.rs:218-294 | handing middlewares down does not change which update types are used |
| DispatcherRouter.OwnInheritingKeepsNames | src/dispatcher/router.rs:218-294 | the same for the router's own observers |
| DispatcherRouter.SubInheritingKeepsNames | src/dispatcher/router.rs:218-294 | the same for the sub-routers |
| DispatcherRouter.NewService | src/dispatcher/router.rs:305-408 | the service keeps the name, one service per sub-router, and each observer's outer middlewares and built observer |
| DispatcherRouter.PropagateAsWritten | src/dispatcher/router.rs:471-510 | as written, a Rejected result can only come from a cancelling outer middleware of the type's observer |
| DispatcherRouter.ByObserverAsWritten | src/dispatcher/router.rs:512-540 | as written, the observer step answers about the event it was given and never Rejected; a Handled answer is the router's own observer's |
| DispatcherRouter.SubRoutersAsWritten | src/dispatcher/router.rs:542-556 | as written, the sub-router loop that does not fail always ends Unhandled, whatever the sub-routers answer; an error is some sub-router's error |
| DispatcherRouter.DroppedSubRouterResponse | src/dispatcher/router.rs:542-556 | with the router's own observer leaving the event unhandled and one sub-router, the code as written answers Unhandled while the corrected router answers what the sub-router answers |
| DispatcherRouter.FinishingHandler | src/dispatcher/router.rs:731-800 | a handler without filters that finishes every event |
| DispatcherRouter.ExampleRouter | src/dispatcher/router.rs:731-800 | a router with the given handlers and sub-routers and no middlewares |
| DispatcherRouter.DroppedSubRouterExample | src/dispatcher/router.rs:542-556 | a router without handlers that includes a router with a finishing handler: the event comes back Unhandled as written and Handled as intended |
| DispatcherRouter.AgreeWithoutSubRouters | src/dispatcher/router.rs:471-556 | the code as written and the corrected router agree on every router without sub-routers |
| DispatcherRouter.ByObserverAgreeWithoutSubRouters | src/dispatcher/router.rs:512-556 | the same for the observer step |
| DispatcherRouter.PropagateCases | src/dispatcher/router.rs:471-556 | an outer middleware's error is returned; a cancel rejects before the observer runs; otherwise the observer's error is returned, Handled is returned, Rejected becomes Unhandled, and Unhandled goes to the sub-routers |
| DispatcherRouter.Propagate | src/dispatcher/router.rs:471-556 | as corrected, a Rejected result needs an outer middleware of the type's observer or a sub-router |
| DispatcherRouter.ByObserver | src/dispatcher/router.rs:512-556 | as corrected, the observer step answers Rejected only through a sub-router |
| DispatcherRouter.SubRoutersFrom | src/dispatcher/router.rs:542-556 | as corrected, the loop ends Unhandled, with the event it was given, only when every remaining sub-router leaves it unhandled |
| DispatcherRouter.SubRoutersPassOver | src/dispatcher/router.rs:542-556 | sub-routers that answer Unhandled pass the event on, and the first one that does not decides |
| DispatcherRouter.PropagateEvent | src/dispatcher/router.rs:471-510 | the method gives the corrected router's outcome |
| DispatcherRouter.PropagateEventByObserver | src/dispatcher/router.rs:512-540 | the method gives the corrected observer step's outcome |
| DispatcherRouter.PropagateToSubRouters | src/dispatcher/router.rs:542-556 | the loop gives the first sub-router response that is not Unhandled, or Unhandled |
| DispatcherRouter.StartupObservers | src/dispatcher/router.rs:438-450 | the router's own startup observer, then those of its direct sub-routers in order |
| DispatcherRouter.ShutdownObservers | src/dispatcher/router.rs:452-464 | the router's own shutdown observer, then those of its direct sub-routers in order |
| DispatcherRouter.EmitStartup | src/dispatcher/router.rs:438-450 | the observers above are triggered in order, stopping at the first error |
| DispatcherRouter.EmitShutdown | src/dispatcher/router.rs:452-464 | the observers above are triggered in order, stopping at the first error |
| FromContext.Keyed | src/extractors/from_context.rs:47-99 | the extraction succeeds exactly when the key is present with a value of the target type, and gives that value; a missing key and a value of another type are reported as different errors |
| FromContext.KeyedInto | src/extractors/from_context.rs:167-221 | the same lookup with the same errors, and a found value is converted into the wrapper |
| FromContext.FirstOfType | src/extractors/from_context.rs:253-257 | a found value has the type and is stored in the context; nothing is found exactly when no visited entry has the type |
| FromContext.KeylessAsWrittenResult | src/extractors/from_context.rs:242-264 | as written, the keyless extraction succeeds exactly when some visited entry has the source type, with a stored value of that type, and otherwise fails with the type-not-found error |
| FromContext.KeylessResult | src/extractors/from_context.rs:223-264 | corrected: it succeeds exactly when the as-written search does, with the found value converted into the wrapper, and fails with the same error otherwise |
| FromContext.KeylessAsWritten | src/extractors/from_context.rs:223-266 | as written, the loop gives `KeylessAsWrittenResult`: the first visited value of the source type, returned as the source type itself |
| FromContext.Keyless | src/extractors/from_context.rs:223-266 | corrected: the loop gives `KeylessResult`, the same search with the found value converted into the wrapper |
| FromContext.KeylessFindsAnyStored | src/extractors/from_context.rs:253-263 | the keyless search fails exactly when no stored value has the type, whatever order the entries are visited in |
| FromContext.KeylessIntoCounterexample | src/extractors/from_context.rs:242-255 | for a context holding one value of type A and the wrapper `Wrapper<A>`, the as-written extraction (the result of `KeylessAsWritten`) gives the A value itself while the corrected one (the result of `Keyless`) gives the wrapper, so the two differ |
| ExtractMiddlewares.ExtractUser | src/extract/middlewares.rs:14-35 | the user is extracted exactly when "event_user" holds a user, and is that user; otherwise the key or type error |
| ExtractMiddlewares.ExtractChat | src/extract/middlewares.rs:37-58 | the chat is extracted exactly when "event_chat" holds a chat, and is that chat; otherwise the key or type error |
| ExtractMiddlewares.ExtractFsmContext | src/extract/middlewares.rs:60-83 | the FSM context is extracted exactly when "fsm_context" holds one, and is that one; otherwise the key or type error |
| ExtractMiddlewares.StoredUserAndChatRoundTrip | src/extract/middlewares.rs:14-58 | a user or chat stored under its key is read back unchanged; an empty context has no user |
| ExtractFutures.PollFuture | src/extract/extractor.rs:54-61 | a future is ready exactly when its delay has run out, and then gives its result; otherwise it moves one poll on |
| ExtractFutures.PollOption | src/extract/extractor.rs:47-62 | the option future is pending exactly while the inner one is; once ready it never fails, and gives `Some` of the output exactly when the inner extraction succeeded |
| ExtractFutures.PollResult | src/extract/extractor.rs:90-103 | the result future is pending exactly while the inner one is; once ready it never fails, and gives the inner outcome with its error converted |
| ExtractFutures.UnitFuture | src/extract/extractor.rs:196-203 | `()` is ready at once and never fails |
| ExtractFutures.Step | src/extract/extractor.rs:145-160 | a running part that is ready becomes done with its value; one that is not moves on by one poll; a done part is left |
| ExtractFutures.FirstFailing | src/extract/extractor.rs:145-157 | no part before the returned position fails on this poll, and the part at it does |
| ExtractFutures.FirstFailingIsFirst | src/extract/extractor.rs:145-157 | the first part that fails is the position found |
| ExtractFutures.TupleFuture.constructor | src/extract/extractor.rs:121-138 | `extract` starts one running slot per part |
| ExtractFutures.TupleFuture.Poll | src/extract/extractor.rs:141-175 | a poll polls the running parts in order: the first failure fails the whole tuple, and the tuple is ready with every value in order once all parts are done |
| ExtractFutures.SlotsAt | src/extract/extractor.rs:141-175 | the slots after some polls hold one slot per part, each as far as that part has got |
| ExtractFutures.PendingPoll | src/extract/extractor.rs:141-175 | every poll before a part finishes, with no part failing, is pending and moves every part on |
| ExtractFutures.FailingPoll | src/extract/extractor.rs:150-157 | on the poll of the earliest failure the tuple fails with that part's error, whatever the other parts do |
| ExtractFutures.FinishingPoll | src/extract/extractor.rs:160-172 | when no part fails, the poll on which the slowest part finishes gives every part's value, in order |
| CommandObjects.CanExtract | src/filters/command.rs:153-157 | as written, `extract` runs without panicking only on a text whose trimmed form is non-empty and starts with a one-byte character; every such text is non-blank |
| CommandObjects.MultiBytePrefixCounterexample | src/filters/command.rs:153-157 | "Привет" is non-blank, yet as written its byte slice `[0..1]` panics; the corrected extraction reads prefix "П" and command "ривет" |
| CommandObjects.Extract | src/filters/command.rs:148-182 | corrected to slice the first character, so defined on every non-blank text: the prefix is the first character of the trimmed text, the arguments are the space-separated tokens after the first, and the command and mention hold neither a space nor '@', an empty mention being none |
| CommandObjects.FromTokens | src/filters/command.rs:153-181 | the object made from the first token has its first character as the prefix and the given arguments, and a command and mention without a space or '@' |
| CommandObjects.ExtractRoundTrip | src/filters/command.rs:148-182 | writing out a well-formed command (prefix, command, optional mention after '@', arguments separated by spaces) and extracting it gives the same command back |
| CommandObjects.ExtractOfTokens | src/filters/command.rs:153-155 | extraction reads the space-separated tokens of the trimmed text |
| CommandObjects.FromTokensOfParts | src/filters/command.rs:157-175 | the first token of a well-formed command gives back its prefix, command and mention |
| CommandObjects.NoSpace | src/filters/command.rs:153 | a string free of white space holds no space |
| CommandObjects.ComposeIsTrimmed | src/filters/command.rs:153-155 | the written form of a command is already trimmed, and its tokens are the first token and the arguments |
| CommandObjects.TailSplits | src/filters/command.rs:158-172 | after the prefix, the mention is split off at its '@' |
| FilterCommand.ValidatePrefix | src/filters/command.rs:62-68 | accepted exactly when the command's prefix is the configured one, otherwise `InvalidPrefix` |
| FilterCommand.ValidateMention | src/filters/command.rs:72-88 | accepted exactly when mentions are ignored, there is no mention, or the bot has a username equal to the mention; otherwise `InvalidMention` |
| FilterCommand.ValidateCommand | src/filters/command.rs:92-120 | the loop accepts exactly when some pattern matches the command (with its ASCII letters lower-cased when case is ignored); otherwise `InvalidCommand` |
| FilterCommand.ParseCommand | src/filters/command.rs:124-132 | on any non-blank text, with the corrected extraction, the method gives the parse result: extraction, then the three checks in order |
| FilterCommand.ParseResultCases | src/filters/command.rs:124-132 | on any non-blank text, parsing succeeds exactly when the prefix, the mention and the command checks all pass, and then gives the extracted command; a wrong prefix is reported first |
| FilterCommand.IgnoreCaseAccepts | src/filters/command.rs:92-104 | with case ignored, a text pattern in lower case accepts the command in any mix of ASCII cases |
| FilterCommand.Check | src/filters/command.rs:185-204 | with the corrected extraction, so for any non-blank text or caption, the filter passes exactly when the update is a message with a text or caption that parses; then the command is stored under "command", and otherwise the context is unchanged |
| LogicalFilters.NewAnd | src/filters/logical.rs:32-58 | a new `And` holds exactly the one filter |
| LogicalFilters.AddAnd | src/filters/logical.rs:42-58 | `and` keeps the filters in order and appends the new one |
| LogicalFilters.NewOr | src/filters/logical.rs:32-57 | a new `Or` holds exactly the one filter |
| LogicalFilters.AddOr | src/filters/logical.rs:42-57 | `or` keeps the filters in order and appends the new one |
| LogicalFilters.FirstAnswering | src/filters/logical.rs:72-94 | no filter before the returned position gives the answer, and the filter at it does |
| LogicalFilters.ValidateAnd | src/filters/logical.rs:68-80 | true exactly when every filter passes; the filters after the first failing one are never asked |
| LogicalFilters.ValidateOr | src/filters/logical.rs:83-95 | true exactly when some filter passes; the filters after the first passing one are never asked |
| LogicalFilters.FirstIsUnique | src/filters/logical.rs:72-94 | the first filter that gives the answer is the only position with no such filter before it |
| LogicalFilters.ValidateInvert | src/filters/logical.rs:98-104 | the inverted filter answers the opposite of its filter |
| LogicalFilters.InvertedOrIsAnd | src/filters/logical.rs:68-104 | an `And` of the inverted filters of an `Or` passes exactly when the `Or` fails |
| LogicalFilters.AddingNarrowsAndWidens | src/filters/logical.rs:42-95 | after adding a filter, an `And` passes only where it passed before, and an `Or` passes at least where it passed before |
| StateFilter.AllowAny | src/filters/state.rs:69-75 | `any` allows exactly the any-state entry |
| StateFilter.AllowNone | src/filters/state.rs:77-83 | `none` allows exactly the no-state entry |
| StateFilter.One | src/filters/state.rs:90-96 | `one` allows exactly the given state entry |
| StateFilter.ManyStates | src/filters/state.rs:98-122 | `many` keeps all the states when each is a plain state; otherwise only the first `Any` or `None`, alone; it is empty exactly when no state is given |
| StateFilter.Many | src/filters/state.rs:98-122 | the loop builds the list `ManyStates` describes |
| StateFilter.ConstructorsAreCheckable | src/filters/state.rs:69-137 | every constructor gives a non-empty list whose first entry `check` can read (`many` as soon as it has a state), so `check` never indexes an empty list |
| StateFilter.FirstExclusive | src/filters/state.rs:106-117 | the position of the first `Any` or `None`, with only plain states before it |
| StateFilter.Check | src/filters/state.rs:139-160 | with no state only a `none` filter passes; with a state a `none` filter fails, an `any` filter passes, and a list of states passes exactly when it contains the state; it requires a non-empty filter, since `check` panics on the one `State::many([])` builds (indexing `allowed_states[0]`) |
| StateFilter.ManyEqualsIsMembership | src/filters/state.rs:98-160 | a `many` filter over plain states passes exactly the listed states and never an absent state |
| StateFilter.ManyExclusiveDecides | src/filters/state.rs:106-160 | in `many`, the first `Any` or `None` decides alone, whatever comes before or after it |
| StateFilter.NoneAndAnyAreComplements | src/filters/state.rs:69-152 | `none` passes exactly when there is no state and `any` exactly when there is one |
| StateFilter.CheckContextAsWritten | src/filters/state.rs:162-181 | as written, the filter reads the "fsm_state" entry: absent means no state, present means that state |
| StateFilter.AsWrittenMissesMiddlewareState | src/filters/state.rs:168-179 | behind the older generation's FSM-context middleware, which stores an `Option<String>` under "state" (src/dispatcher/middlewares/outer/fsm_context.rs:135), the filter as written always sees no state; the `src/*` generation's own middleware is not part of this model |
| StateFilter.StateKeyCounterexample | src/filters/state.rs:168-179 | with "form" stored under "state", a filter for "form" fails as written and passes corrected |
| StateFilter.CheckContext | src/filters/state.rs:162-181 | corrected to match the older generation's middleware, in both key and type: the filter reads the `Option<String>` under "state": absent means no state, present means the stored optional state |
| StateFilter.CorrectedSeesMiddlewareState | src/filters/state.rs:162-181 | behind the older generation's FSM-context middleware, as written, the corrected filter checks the state the storage holds under the key that middleware resolved |
| TextFilter.Any | src/filters/text.rs:341-348 | `any` over a list holds exactly when some element satisfies the predicate |
| TextFilter.Caseless | src/filters/text.rs:90-99 | a text pattern becomes its form with ASCII letters lower-cased; a regex becomes one that matches case-insensitively |
| TextFilter.New | src/filters/text.rs:71-124 | with `ignore_case` every text, part, prefix and suffix has its ASCII letters lower-cased and every regex is made caseless, element by element; without it all four lists are kept as given |
| TextFilter.PrepareText | src/filters/text.rs:331-338 | when case is ignored the text has its ASCII letters lower-cased character by character (so its length is kept); otherwise it is unchanged |
| TextFilter.ValidateTexts | src/filters/text.rs:341-349 | passes iff some pattern matches the prepared text |
| TextFilter.ValidateContains | src/filters/text.rs:352-358 | passes iff some part occurs in the prepared text |
| TextFilter.ValidateStartsWith | src/filters/text.rs:361-367 | passes iff the prepared text starts with some prefix |
| TextFilter.ValidateEndsWith | src/filters/text.rs:370-376 | passes iff the prepared text ends with some suffix |
| TextFilter.ValidateText | src/filters/text.rs:379-385 | passes iff one of the four checks passes; a filter with no patterns passes nothing |
| TextFilter.Check | src/filters/text.rs:389-391 | an update without text fails; otherwise the filter passes iff its text validates |
| TextFilter.IgnoreCaseIgnoresInputCase | src/filters/text.rs:331-338 | a filter built with `ignore_case` gives the same answer for a text and its ASCII-lower-cased form |
| TextFilter.OneTextPattern | src/filters/text.rs:399-421 | a single text pattern matches exactly the equal text, or, when case is ignored, the text equal up to ASCII case |
| TextFilter.OnePartIgnoringCase | src/filters/text.rs:424-540 | with `ignore_case` a part, prefix or suffix is found iff its ASCII-lower-cased form is found in the ASCII-lower-cased text |
| TextFilter.ContainsCoversPrefixesAndSuffixes | src/filters/text.rs:352-376 | a text accepted by a prefix or a suffix is also accepted once those are moved into the contained parts |
| TextFilter.Builder | src/filters/text.rs:193-195 | a fresh builder has no patterns and respects case |
| TextFilter.AddTexts | src/filters/text.rs:210-232 | the new patterns go after the ones given before; nothing else changes |
| TextFilter.AddContains | src/filters/text.rs:234-256 | the new parts go after the ones given before; nothing else changes |
| TextFilter.AddStartsWith | src/filters/text.rs:258-284 | the new prefixes go after the ones given before; nothing else changes |
| TextFilter.AddEndsWith | src/filters/text.rs:286-308 | the new suffixes go after the ones given before; nothing else changes |
| TextFilter.IgnoreCase | src/filters/text.rs:310-316 | replaces the flag and keeps every list |
| TextFilter.Build | src/filters/text.rs:318-326 | the filter is `Text::new` applied to the builder's lists and flag, in call order |
| TextFilter.One | src/filters/text.rs:129-131 | one pattern, no parts, case respected |
| TextFilter.Many | src/filters/text.rs:137-139 | the given patterns, no parts, case respected |
| TextFilter.ContainsMany | src/filters/text.rs:153-155 | the given parts only, case respected |
| TextFilter.StartsWithMany | src/filters/text.rs:169-171 | the given prefixes only, case respected |
| TextFilter.EndsWithMany | src/filters/text.rs:185-187 | the given suffixes only, case respected |
| TextFilter.TwoTextsExample | src/filters/text.rs:399-421 | two `text` calls pass exactly either text, compared up to ASCII case when case is ignored |
| UserFilter.ValidateUsername | src/filters/user.rs:324-328 | passes iff the username is one of the listed usernames |
| UserFilter.ValidateFirstName | src/filters/user.rs:331-335 | passes iff the first name is one of the listed first names |
| UserFilter.ValidateLastName | src/filters/user.rs:338-342 | passes iff the last name is one of the listed last names |
| UserFilter.ValidateLanguageCode | src/filters/user.rs:345-349 | passes iff the language code is one of the listed codes |
| UserFilter.ValidateId | src/filters/user.rs:352-354 | passes iff the id is one of the listed ids |
| UserFilter.OptionalMatches | src/filters/user.rs:357-374 | an optional field matches iff it is present and its value passes |
| UserFilter.Validate | src/filters/user.rs:357-374 | a user passes iff a present username, the id, the first name, a present last name or a present language code is listed |
| UserFilter.Check | src/filters/user.rs:378-383 | an update without a user fails; otherwise the filter passes iff the user validates |
| UserFilter.UsernamesOnly | src/filters/user.rs:388-398 | a filter of usernames alone passes exactly the users whose username is listed; users without one never pass |
| UserFilter.AbsentFieldsNeverMatch | src/filters/user.rs:357-374 | a user without username, last name and language code is decided by id and first name alone |
| UserFilter.Builder | src/filters/user.rs:166-168 | a fresh builder lists nothing |
| UserFilter.AddUsernames | src/filters/user.rs:183-205 | the new usernames go after those given before; nothing else changes |
| UserFilter.AddFirstNames | src/filters/user.rs:207-233 | the new first names go after those given before; nothing else changes |
| UserFilter.AddLastNames | src/filters/user.rs:235-261 | the new last names go after those given before; nothing else changes |
| UserFilter.AddLanguageCodes | src/filters/user.rs:263-289 | the new language codes go after those given before; nothing else changes |
| UserFilter.AddIds | src/filters/user.rs:291-309 | the new ids go after those given before; nothing else changes |
| UserFilter.Build | src/filters/user.rs:311-320 | the filter keeps the builder's five lists as given |
| UserFilter.BuilderCallsWiden | src/filters/user.rs:183-320 | every builder call only widens the filter, and adding a user's id or first name makes that user pass |
| FsPath.Join | src/client/telegram.rs:79-82 | joining an absolute path yields that path; joining a relative one appends its components to the base |
| FsPath.FileName | src/types/input_file.rs:226-229 | a path has a file name iff it has a last component other than ".."; the name is that component |
| FsPath.FileNameOfJoin | telers/src/types/input_file.rs:283-287 | a relative path joined under any directory keeps its own file name |
| FsmContextMiddleware.New | src/dispatcher/middlewares/outer/fsm_context.rs:27-33 | a new middleware uses the default strategy and the default destiny |
| FsmContextMiddleware.WithStrategy | src/dispatcher/middlewares/outer/fsm_context.rs:36-41 | replaces the strategy and keeps the destiny |
| FsmContextMiddleware.WithDestiny | src/dispatcher/middlewares/outer/fsm_context.rs:44-49 | replaces the destiny and keeps the strategy |
| FsmContextMiddleware.GetContext | src/dispatcher/middlewares/outer/fsm_context.rs:106-117 | the key carries the bot, chat and user ids given and the configured destiny |
| FsmContextMiddleware.ResolveContext | src/dispatcher/middlewares/outer/fsm_context.rs:92-103 | there is a key iff there is a user id; its ids are the strategy's pair for the chat id, or the user id when the chat is missing |
| FsmContextMiddleware.MissingChatIsUserChat | src/dispatcher/middlewares/outer/fsm_context.rs:98-99 | a missing chat id gives the same key as the user's private chat |
| FsmContextMiddleware.UserIdOf | src/dispatcher/middlewares/outer/fsm_context.rs:84 | a context entry yields a user id iff it holds a user |
| FsmContextMiddleware.ChatIdOf | src/dispatcher/middlewares/outer/fsm_context.rs:85 | a context entry yields a chat id iff it holds a chat |
| FsmContextMiddleware.ResolveEventContextAsWritten | src/dispatcher/middlewares/outer/fsm_context.rs:71-89 | as written, both the user entry and the chat entry are read as users |
| FsmContextMiddleware.ResolveEventContext | src/dispatcher/middlewares/outer/fsm_context.rs:71-89 | with the chat entry read as a chat, there is a key iff the user entry holds a user |
| FsmContextMiddleware.AsWrittenIgnoresChat | src/dispatcher/middlewares/outer/fsm_context.rs:85 | as written, a stored chat never contributes: the key is the user's private-chat key |
| FsmContextMiddleware.ChatDowncastCounterexample | src/dispatcher/middlewares/outer/fsm_context.rs:84-85 | user 7 in group 5 gets chat id 7 as written and 5 as intended |
| FsmContextMiddleware.Stored | src/dispatcher/middlewares/outer/fsm_context.rs:129-143 | it fails exactly when a key was resolved and reading its state fails, with the "Failed to get FSM state" message; otherwise the storage is always stored, the state and FSM context exactly when a key was resolved (the state being the one stored under it), and no other entry changes |
| FsmContextMiddleware.Store | src/dispatcher/middlewares/outer/fsm_context.rs:129-143 | the context afterwards is the one `Stored` gives, and a failing state read leaves it untouched and is the error |
| FsmContextMiddleware.CallResult | src/dispatcher/middlewares/outer/fsm_context.rs:125-144 | as written, `call` fails exactly when the event has a user and reading the state under the as-written key fails; with a chat stored, the FSM context is the user's private-chat key |
| FsmContextMiddleware.CallResultCorrected | src/dispatcher/middlewares/outer/fsm_context.rs:125-144 | with the chat read as a chat, `call` fails exactly when the event has a user and reading that key's state fails; the FSM context is the key of the stored chat and user |
| FsmContextMiddleware.Call | src/dispatcher/middlewares/outer/fsm_context.rs:125-144 | `call` as written, resolving the key with the chat entry read as a user: on success the context holds the storage and, when a key resolves, the state and the FSM context; a failing state read is the error and changes nothing |
| FsmContextMiddleware.CallCorrected | src/dispatcher/middlewares/outer/fsm_context.rs:125-144 | the same `call` with the chat entry read as a chat |
| FsmContextMiddleware.CallEntries | src/dispatcher/middlewares/outer/fsm_context.rs:129-141 | as written, the storage is always stored; the state and FSM context exactly when the event has a user, under the user's private-chat key whenever a chat is stored, the state being the one stored under that key; no other entry changes |
| FsmContextMiddleware.CallCorrectedEntries | src/dispatcher/middlewares/outer/fsm_context.rs:129-141 | with the chat read as a chat, the same, under the key of the stored chat and user |
| FsmContextMiddleware.CallKeyCounterexample | src/dispatcher/middlewares/outer/fsm_context.rs:84-86 | user 7 writing in group 5: `call` as written stores the FSM context of chat 7, the corrected `call` that of chat 5 |
| StorageBase.NewKey | src/fsm/storage/base.rs:16-25 | a new key carries the three ids given and the default destiny |
| StorageBase.WithDestiny | src/fsm/storage/base.rs:28-33 | replaces the destiny and keeps the three ids |
| StorageBase.KeyIdentity | src/fsm/storage/base.rs:8-33 | keys built from the same ids are equal, and renaming a key back to its own destiny gives it back |
| StorageBase.StateContract | src/fsm/storage/base.rs:40-59 | a state set under a key is read back, a removed or never-set state reads as None, and other keys' states are untouched |
| StorageBase.DataContract | src/fsm/storage/base.rs:61-120 | data set under a key is read back, a value set is read back, removed or never-set data reads as the empty map |
| StorageBase.DataFrame | src/fsm/storage/base.rs:61-97 | setting or removing one key's data or value leaves every other key's data unchanged |
| StorageBase.SetValueKeepsOthers | src/fsm/storage/base.rs:79-92 | setting one value keeps the key's other values and its state |
| FsmMemory.Memory.constructor | src/fsm/storage/memory.rs:34-40 | a new storage holds no record |
| FsmMemory.Memory.SetState | src/fsm/storage/memory.rs:49-72 | pushes the state onto the key's stack, creating a record with empty data when the key is new |
| FsmMemory.Memory.PreviousState | src/fsm/storage/memory.rs:74-87 | pops one state of an existing key; a missing key changes nothing |
| FsmMemory.Memory.GetState | src/fsm/storage/memory.rs:89-105 | the top of the key's stack, None iff the key is absent or its stack is empty |
| FsmMemory.Memory.GetStates | src/fsm/storage/memory.rs:107-122 | the key's whole stack in push order, empty for an absent key |
| FsmMemory.Memory.RemoveStates | src/fsm/storage/memory.rs:124-138 | empties the stack of an existing key and keeps its data; a missing key changes nothing |
| FsmMemory.Memory.SetData | src/fsm/storage/memory.rs:140-215 | succeeds iff every value serializes, then replaces the key's data wholesale; on failure the storage is unchanged |
| FsmMemory.Memory.SetValue | src/fsm/storage/memory.rs:217-273 | succeeds iff the value serializes, then inserts or overwrites that one value; on failure the storage is unchanged |
| FsmMemory.Memory.GetData | src/fsm/storage/memory.rs:275-309 | the key's values deserialized, the first failure being the error; an absent key gives the empty map |
| FsmMemory.Memory.GetValue | src/fsm/storage/memory.rs:311-340 | None when the key or the value key is absent; otherwise the stored value deserialized |
| FsmMemory.Memory.RemoveData | src/fsm/storage/memory.rs:342-356 | clears the data of an existing key and keeps its states; a missing key changes nothing |
| FsmMemory.SetStateThenPrevious | src/fsm/storage/memory.rs:359-408 | after `set_state` the current state is the one set, and `previous_state` restores the stack that was there before |
| FsmMemory.Frame | src/fsm/storage/memory.rs:49-356 | updating one key's states or data leaves every other key and the other half of the same record untouched |
| FsmMemory.SetDataReplaces | src/fsm/storage/memory.rs:140-215 | after `set_data` the key holds exactly the value keys of the new data |
| FsmMemory.SetDataGetData | src/fsm/storage/memory.rs:411-470 | with a codec that reads back what it writes, `get_data` returns the data last set |
| FsmMemory.SetValueKeepsRest | src/fsm/storage/memory.rs:217-273 | `set_value` changes one value key and keeps the other values and the states |
| FsmMemory.AbsentKey | src/fsm/storage/memory.rs:359-366 | an absent key has no state, no states and empty data |
| FsmRedis.PartName | src/fsm/storage/redis.rs:24-32 | the States part is named "states" and the Data part "data" |
| FsmRedis.DefaultBuilder | src/fsm/storage/redis.rs:85-90 | the default key builder uses prefix "fsm", separator ":" and includes both the bot id and the destiny |
| FsmRedis.BuildShape | src/fsm/storage/redis.rs:93-118 | the States key and the Data key of one storage key agree on everything but the final part name |
| FsmRedis.StatesAndDataKeysDiffer | src/fsm/storage/redis.rs:93-118 | a States key never equals a Data key, so state lists and data strings never collide |
| FsmRedis.JoinStart | src/fsm/storage/redis.rs:118 | a joined key starts with its first segment, followed by the separator when more segments follow |
| FsmRedis.JoinInjective | src/fsm/storage/redis.rs:118 | joining segments free of the separator's first character loses no information |
| FsmRedis.SegmentsLayout | src/fsm/storage/redis.rs:101-116 | the prefix, destiny, bot id, chat id, thread id, user id and part appear in this order, each only when configured or present |
| FsmRedis.SegmentsAvoidSeparator | src/fsm/storage/redis.rs:93-118 | with a safe separator no segment contains its first character |
| FsmRedis.BuildInjective | src/fsm/storage/redis.rs:93-118 | two storage keys map to the same Redis key only if they agree on the part, chat, thread and user, on the bot id when it is written and on the destiny when it is written |
| FsmRedis.Redis.constructor | src/fsm/storage/redis.rs:132-137 | a new storage uses the default key builder |
| FsmRedis.Redis.SetKeyBuilder | src/fsm/storage/redis.rs:140-148 | replaces the key builder and leaves the server contents alone |
| FsmRedis.Redis.SetState | src/fsm/storage/redis.rs:166-206 | appends the state to the key's States list; nothing else changes |
| FsmRedis.Redis.SetPreviousState | src/fsm/storage/redis.rs:208-238 | removes the last state of the key's States list, if any; nothing else changes |
| FsmRedis.Redis.GetState | src/fsm/storage/redis.rs:240-276 | the last state pushed, or None for an empty or missing list |
| FsmRedis.Redis.GetStates | src/fsm/storage/redis.rs:278-313 | every state in push order, empty for a missing list |
| FsmRedis.Redis.RemoveStates | src/fsm/storage/redis.rs:315-344 | deletes the key's States list only |
| FsmRedis.Redis.SetData | src/fsm/storage/redis.rs:346-390 | succeeds iff every value converts to JSON, then stores the whole map as one JSON text; on failure nothing is written |
| FsmRedis.Redis.SetValue | src/fsm/storage/redis.rs:392-483 | reads the stored map or starts from an empty one, inserts the value and writes the map back; a failure writes nothing |
| FsmRedis.Redis.GetData | src/fsm/storage/redis.rs:485-539 | the stored JSON text parsed and converted; no stored text gives the empty map |
| FsmRedis.Redis.GetValue | src/fsm/storage/redis.rs:541-618 | None when no data is stored or the value key is absent; otherwise the value converted |
| FsmRedis.Redis.RemoveData | src/fsm/storage/redis.rs:620-645 | deletes the key's Data string only |
| FsmRedis.StatesAreAStack | src/fsm/storage/redis.rs:166-238 | on the server's lists, RPUSH then read gives the pushed state, RPOP undoes RPUSH when no empty list is kept, other keys' lists are untouched by both, and neither creates an empty list |
| FsmRedis.SetGetPrevious | src/fsm/storage/redis.rs:166-276 | `set_state`, then `get_state`, then `set_previous_state` on the storage: the read gives the state just set and the storage's lists end as they began |
| FsmRedis.SetValueThenGetValue | src/fsm/storage/redis.rs:392-618 | with a round-tripping JSON codec, `get_value` after `set_value` returns the value, and other value keys read as before |
| FsmRedis.SetDataThenGetData | src/fsm/storage/redis.rs:346-539 | with a round-tripping codec and value conversions, `get_data` after `set_data` returns the data set |
| HtmlDecoration.Default | src/utils/text_decorations/html.rs:110-131 | the default decoration (and the static one) uses the tags b, i, u, s, tg-spoiler and tg-emoji |
| HtmlDecoration.Tagged | src/utils/text_decorations/html.rs:20-51 | the result is the opening tag, then the text unchanged, then the closing tag |
| HtmlDecoration.TaggedPieces | src/utils/text_decorations/html.rs:20-51 | a tagged text is exactly opening tag, text and closing tag concatenated |
| HtmlDecoration.DefaultMarkup | src/utils/text_decorations/html.rs:20-51 | with the default tags bold, italic and spoiler write the markup Telegram's HTML mode reads |
| HtmlDecoration.WrappedTextRecoverable | src/utils/text_decorations/html.rs:29-75 | every wrapper keeps the text whole between its opening and closing markup, so it can be cut back out |
| HtmlDecoration.QuoteReplacementsEscape | src/utils/text_decorations/html.rs:81-83 | the three replacements applied in order escape every special character exactly once |
| HtmlDecoration.Quote | src/utils/text_decorations/html.rs:78-86 | the loop over the replacements yields the character-by-character escape of the text |
| HtmlDecoration.QuotedTextIsInert | src/utils/text_decorations/html.rs:78-86 | a quoted text holds no '<' or '>' and unescapes back to the text |
| HtmlDecoration.Bold | src/utils/text_decorations/html.rs:21-23 | the text appears unchanged between an opening and a closing tag named by the decoration's bold tag, and nothing else is added |
| HtmlDecoration.Italic | src/utils/text_decorations/html.rs:25-27 | the text appears unchanged between opening and closing italic tags, and nothing else is added |
| HtmlDecoration.Code | src/utils/text_decorations/html.rs:29-31 | the text appears unchanged between `<code>` and `</code>`, whatever the decoration's tags |
| HtmlDecoration.Underline | src/utils/text_decorations/html.rs:33-39 | the text appears unchanged between opening and closing underline tags, and nothing else is added |
| HtmlDecoration.Strikethrough | src/utils/text_decorations/html.rs:41-47 | the text appears unchanged between opening and closing strikethrough tags, and nothing else is added |
| HtmlDecoration.Spoiler | src/utils/text_decorations/html.rs:49-51 | the text appears unchanged between opening and closing spoiler tags, and nothing else is added |
| HtmlDecoration.Pre | src/utils/text_decorations/html.rs:53-55 | the text appears unchanged between `<pre>` and `</pre>` |
| HtmlDecoration.PreLanguage | src/utils/text_decorations/html.rs:57-63 | the text appears unchanged after a `pre`/`code` opening naming the language as `language-<language>` class and before `</code></pre>` |
| HtmlDecoration.Link | src/utils/text_decorations/html.rs:65-67 | the text appears unchanged between an anchor opening whose `href` is the URL and `</a>` |
| HtmlDecoration.CustomEmoji | src/utils/text_decorations/html.rs:69-76 | the text appears unchanged between an emoji-tag opening carrying the emoji id as `data-emoji-id` and the matching closing tag |
| HtmlEscape.Replace | src/utils/text/html_formatter.rs:189-192 | replacing a character that does not occur changes nothing, and a replacement free of the character removes it |
| HtmlEscape.ReplaceAppend | src/utils/text/html_formatter.rs:189-192 | replacement distributes over concatenation |
| HtmlEscape.EscapeChar | src/utils/text/html_formatter.rs:189-192 | an escaped character holds no '<' or '>', and any character other than the three is kept |
| HtmlEscape.Escape | src/utils/text/html_formatter.rs:185-193 | the escaped text holds no '<' or '>' and is never shorter than the text |
| HtmlEscape.UnescapeEscape | src/utils/text/html_formatter.rs:185-193 | unescaping the escaped text gives the text back |
| HtmlEscape.EscapePlainText | src/utils/text/html_formatter.rs:185-193 | a text without '&', '<' and '>' is left as it is |
| HtmlEscape.ReplaceChainIsEscape | src/utils/text/html_formatter.rs:189-192 | the chain `&`, then `<`, then `>` equals the character-by-character escape |
| HtmlEscape.AmpersandLastDoubleEscapes | src/utils/text/html_formatter.rs:189-192 | replacing '<' before '&' would turn "<" into "&amp;lt;" |
| HtmlEscape.AmpersandFirstEscapesOnce | src/utils/text/html_formatter.rs:189-192 | the order used turns "<" into "&lt;" |
| HtmlFormatter.Default | src/utils/text/html_formatter.rs:54-66 | the default formatter (and `FORMATTER`) uses the tags b, i, u, s, tg-spoiler and tg-emoji |
| HtmlFormatter.Quote | src/utils/text/html_formatter.rs:185-193 | the quoted text is the character-by-character escape and unescapes back to the text |
| HtmlFormatter.TextLink | src/utils/text/html_formatter.rs:124-134 | the text appears unchanged between an anchor opening whose `href` is the URL and `</a>` |
| HtmlFormatter.TextMention | src/utils/text/html_formatter.rs:136-144 | the text appears unchanged inside an anchor to `tg://user?id=` followed by the decimal user id, and that id reads back as the user id |
| HtmlFormatter.CustomEmoji | src/utils/text/html_formatter.rs:146-157 | the text appears unchanged between an emoji-tag opening carrying the emoji id and the matching closing tag |
| HtmlFormatter.PreLanguage | src/utils/text/html_formatter.rs:173-183 | the text appears unchanged inside a `pre`/`code` block whose class names the language |
| HtmlFormatter.ApplyEntity | src/utils/text/html_formatter.rs:195-247 | fails iff the text is empty (EmptyText) or the span runs past its end; otherwise the text with exactly the span replaced by its edited form, before and after kept |
| HtmlFormatter.SignedKinds | src/utils/text/html_formatter.rs:217-220 | mentions, hashtags, cashtags and bot commands put their sign in front of the span and keep the rest of the text |
| HtmlFormatter.PlainKinds | src/utils/text/html_formatter.rs:221-223 | URLs, e-mails and phone numbers leave the text unchanged |
| HtmlFormatter.ApplyEntityKindWholeText | src/utils/text/formatter.rs:110-130 | over a non-empty text shorter than 65536 characters, `apply_entity_kind` edits the whole text |
| HtmlFormatter.DefaultBoldExample | src/utils/text/html_formatter.rs:195-247 | bold over "world" in "Hello, world!" gives "Hello, <b>world</b>!" |
| TelersInputFile.AttachOf | telers/src/types/input_file.rs:17 | a part name is "attach://" followed by the file's id |
| TelersInputFile.AttachedId | telers/src/types/input_file.rs:17 | a string names a part iff it starts with "attach://" |
| TelersInputFile.AttachRoundTrip | telers/src/types/input_file.rs:117-128 | the id can be read back from the part name a file is sent as |
| TelersInputFile.AttachInjective | telers/src/types/input_file.rs:242-268 | files with different ids are sent as different parts |
| TelersInputFile.NewFSFile | telers/src/types/input_file.rs:242-268 | keeps the id, path and name given and names its part after the id |
| TelersInputFile.NewBufferedFile | telers/src/types/input_file.rs:346-375 | keeps the id, bytes and name given and names its part after the id |
| TelersInputFile.FSFileName | telers/src/types/input_file.rs:283-287 | the name given, otherwise the path's last component |
| TelersInputFile.FSFileNameFromPath | telers/src/types/input_file.rs:283-287 | a file made from a directory joined with a name, or made with that name, is called by that name |
| TelersInputFile.TakeCell.constructor | telers/src/types/input_file.rs:421-423 | a new cell holds its stream |
| TelersInputFile.TakeCell.Take | telers/src/types/input_file.rs:496-500 | gives what the cell held and leaves it empty |
| TelersInputFile.StreamFile.constructor | telers/src/types/input_file.rs:440-472 | keeps the id and name, names its part after the id, and puts the stream in a new cell |
| TelersInputFile.StreamFile.TakeStream | telers/src/types/input_file.rs:496-500 | the stream the first time, None until it is set again |
| TelersInputFile.StreamFile.SetStream | telers/src/types/input_file.rs:510-515 | puts the stream in a new cell, taken or not |
| TelersInputFile.StreamFile.SetStreamIfTakenAsWritten | telers/src/types/input_file.rs:526-537 | as written: replaces the stream iff it was not taken, and says so |
| TelersInputFile.StreamFile.SetStreamIfTaken | telers/src/types/input_file.rs:517-537 | as the name says: replaces the stream iff it was taken, and says so |
| TelersInputFile.StreamFile.Clone | telers/src/types/input_file.rs:557-568 | a fresh id and part name, the same name and the same shared cell |
| TelersInputFile.TakeTwice | telers/src/types/input_file.rs:490-495 | a stream is taken once; the second take finds nothing |
| TelersInputFile.SetAfterTake | telers/src/types/input_file.rs:503-515 | after `set_stream` a taken file can be taken again |
| TelersInputFile.TakenStreamNotRestoredAsWritten | telers/src/types/input_file.rs:526-537 | as written, a taken stream is not restored and the file stays without a stream |
| TelersInputFile.UntakenStreamReplacedAsWritten | telers/src/types/input_file.rs:526-537 | as written, a stream not yet taken is thrown away for the new one |
| TelersInputFile.TakenStreamRestored | telers/src/types/input_file.rs:517-537 | corrected, a taken stream is restored |
| TelersInputFile.UntakenStreamKept | telers/src/types/input_file.rs:517-537 | corrected, a stream not yet taken is kept |
| TelersInputFile.CloneSharesStream | telers/src/types/input_file.rs:557-580 | taking the stream through a clone leaves nothing for the original; the two are equal iff the fresh id is the old one |
| TelersInputFile.SetStreamDetachesClone | telers/src/types/input_file.rs:510-515 | `set_stream` on one file leaves its clone with the old stream |
| TelersInputFile.IsRequireMultipart | telers/src/types/input_file.rs:136-145 | false exactly for file ids and URLs |
| TelersInputFile.StrToFile | telers/src/types/input_file.rs:120-128 | an id or URL itself; a file uploaded in the body names its part |
| TelersInputFile.ConstructedUploads | telers/src/types/input_file.rs:64-108 | files built from a path or bytes are well formed and send the part name of their id |
| TelersInputFile.MultipartNamesItsPart | telers/src/types/input_file.rs:117-128 | the string sent for an uploaded file reads back as that file's id |
| SrcInputFile.NewFSFile | src/types/input_file.rs:188-202 | keeps the id, path and name given and names its part after the id |
| SrcInputFile.Fs | src/types/input_file.rs:31-58 | `fs`, `path` and `file_path` all build a file on disk |
| SrcInputFile.IsRequireMultipart | src/types/input_file.rs:86-92 | true exactly for files on disk |
| SrcInputFile.StrToFile | src/types/input_file.rs:72-78 | an id or URL itself; a file on disk names its part |
| SrcInputFile.SameStrToFile | src/types/input_file.rs:188-207 | both versions of the library send the same string for the same file |
| SrcInputFile.FileName | src/types/input_file.rs:223-229 | the name given, otherwise the path's last component |
| SrcInputFile.SameFileName | src/types/input_file.rs:223-229 | both versions of the library name a file the same way |
| SrcInputFile.Chunks | src/types/input_file.rs:239-246 | the reads the loop consumes: every one filled some bytes, and the next read, if any, failed or filled none |
| SrcInputFile.Flatten | src/types/input_file.rs:246 | the chunks concatenated in order |
| SrcInputFile.ReadAsWritten | src/types/input_file.rs:234-249 | as written: an open error is returned; otherwise 64 KiB per chunk, each block starting with that chunk's bytes |
| SrcInputFile.Read | src/types/input_file.rs:234-249 | corrected: an open error is returned; otherwise the file's bytes, chunk after chunk |
| SrcInputFile.FlattenChunk | src/types/input_file.rs:239-246 | each chunk sits whole, in order, inside the concatenation |
| SrcInputFile.ShortFileAsWritten | src/types/input_file.rs:234-249 | as written, a 3-byte file comes back 65536 bytes long |
| SrcInputFile.ShortFile | src/types/input_file.rs:234-249 | corrected, the same file comes back as its 3 bytes |
| IntText.IntRoundTrip | src/fsm/storage/redis.rs:94-99 | the decimal text of an integer reads back as that integer |
| IntText.IntToStringInjective | src/fsm/storage/redis.rs:94-99 | distinct integers have distinct decimal texts |
| MacroAttrs.Count | telers-macros/src/from_event.rs:108-250 | the number of entries with a keyword never exceeds the number of items |
| FromEventMacro.ParseTypeKind | telers-macros/src/from_event.rs:36-69 | succeeds iff the value is the bare path `Update`; another identifier is an unknown type, anything else an expected `Update` |
| FromEventMacro.ParseExtractionError | telers-macros/src/from_event.rs:318-341 | succeeds iff the value starts with an identifier, giving that path as the custom error type; otherwise a type is expected |
| FromEventMacro.Parse | telers-macros/src/from_event.rs:108-250 | the loop over the attribute's items computes the specified result: each item handled in turn, then the final checks |
| FromEventMacro.ScanOk | telers-macros/src/from_event.rs:119-223 | the scan succeeds iff every item is well formed, `from` and `try_from` are not both given, and no keyword repeats; the slots then hold the counts given |
| FromEventMacro.ParseOk | telers-macros/src/from_event.rs:108-250 | parsing succeeds iff every item is well formed, exactly one of `from` and `try_from` is given, `error` and `description` at most once, and `error` never with `from` |
| FromEventMacro.ErrorFilledForTryFrom | telers-macros/src/from_event.rs:238-243 | a parsed `try_from` always has an error type, the default one when none is given; `from` never has one |
| FromEventMacro.ParseExamples | telers-macros/src/from_event.rs:108-250 | `from = Update` and `try_from = Update,` parse; `from` with `try_from` and a lone comma are refused |
| FromEventMacro.Generate | telers-macros/src/from_event.rs:360-441 | `from` generates an infallible conversion, `try_from` a fallible one failing with the parsed error type |
| FromEventMacro.Expand | telers-macros/src/from_event.rs:443-543 | an item that is neither struct nor enum is refused, a missing attribute is refused, and otherwise the parsed attribute generates the impl or its parse error is returned |
| FromContextMacro.Parse | telers-macros/src/from_context.rs:49-157 | the loop over the attribute's items computes the specified result |
| FromContextMacro.ScanOk | telers-macros/src/from_context.rs:66-146 | the scan succeeds iff every item is well formed and no keyword repeats; the slots then hold what was given |
| FromContextMacro.ParseOk | telers-macros/src/from_context.rs:49-157 | parsing succeeds iff every item is well formed, `key` is given exactly once and `into`, `from` and `description` at most once; `into` and `from` are set exactly when given |
| FromContextMacro.Generate | telers-macros/src/from_context.rs:220-373 | with `into` the impl is for `into` over the annotated type; otherwise with `from` it is for the annotated type over `from`; otherwise over itself; the description defaults to "no description" |
| FromContextMacro.IntoWins | telers-macros/src/from_context.rs:259-336 | when both `into` and `from` are given, `from` is ignored |
| FromContextMacro.Extract | telers-macros/src/from_context.rs:220-373 | the generated extractor succeeds iff the key is in the context with the stored type, and returns that value; otherwise it names the key and the description |
| FromContextMacro.Expand | telers-macros/src/from_context.rs:375-475 | an item that is neither struct nor enum is refused, a missing attribute is refused, and otherwise the parsed attribute generates the impl or its parse error is returned |
| MacroStream.TrimChars | telers-macros/src/stream.rs:21-66 | the loop returns the stream between the first token, dropped iff it is `start`, and the last token, dropped iff it is `end` |
| MacroStream.TrimNothing | telers-macros/src/stream.rs:21-66 | without `start` and `end` the stream is unchanged |
| MacroStream.TrimmedIsMiddle | telers-macros/src/stream.rs:31-63 | the first token goes exactly when it is `start`, the last exactly when it is `end`, and nothing else changes |
| MacroStream.TrimmedLength | telers-macros/src/stream.rs:21-66 | at most one token goes from each side |
| MacroStream.SingleEndToken | telers-macros/src/stream.rs:42-63 | a stream of one `end` token trims to the empty stream |
| MacroStream.TrimNotIdempotent | telers-macros/src/stream.rs:21-66 | trimming `<<T>>` twice removes more than trimming once |
| MacroStream.AngleBracketExamples | telers-macros/src/stream.rs:72-169 | `<T, E>` trimmed at the start, at the end and at both sides, and a stream without the characters left as it is |
| MarkdownFormatter.Default | src/utils/text/markdown_formatter.rs:11-39 | the default pattern quotes exactly _ * [ ] ( ) ~ ` > # + - = \| { } . ! and the backslash |
| MarkdownFormatter.QuoteChar | src/utils/text/markdown_formatter.rs:129-134 | a character the pattern matches gets a backslash in front; any other is kept |
| MarkdownFormatter.Quote | src/utils/text/markdown_formatter.rs:129-134 | the quoted text is never shorter, and a text with nothing to quote is kept |
| MarkdownFormatter.TextLink | src/utils/text/markdown_formatter.rs:77-83 | the text appears unchanged between `[` and `](`, followed by the URL and `)` |
| MarkdownFormatter.TextMention | src/utils/text/markdown_formatter.rs:85-90 | a text link to `tg://user?id=` followed by the decimal user id, which reads back as the user id |
| MarkdownFormatter.CustomEmoji | src/utils/text/markdown_formatter.rs:92-101 | a text link of the emoji text to `tg://emoji?id=` followed by the emoji id |
| MarkdownFormatter.PreLanguage | src/utils/text/markdown_formatter.rs:117-127 | the text appears unchanged between a fence line naming the language and a closing fence |
| MarkdownFormatter.UnquoteQuote | src/utils/text/markdown_formatter.rs:129-134 | when the backslash itself is quoted, unquoting the quoted text gives the text back |
| MarkdownFormatter.QuoteIsWellQuoted | src/utils/text/markdown_formatter.rs:129-134 | no quoted character is left without its backslash |
| MarkdownFormatter.QuoteAppend | src/utils/text/markdown_formatter.rs:129-134 | quoting distributes over concatenation |
| MarkdownFormatter.QuoteBetween | src/utils/text/markdown_formatter.rs:129-134 | a quoted character between two runs that need no quoting gets its backslash and the runs are kept |
| MarkdownFormatter.QuoteSymbolBetweenWords | src/utils/text/markdown_formatter.rs:312-333 | "test c test" quotes to "test \c test" for every quoted character c |
| MarkdownFormatter.QuoteBracketsExample | src/utils/text/markdown_formatter.rs:312-316 | "[test]" quotes to "\[test\]" |
| MarkdownFormatter.ApplyEntity | src/utils/text/markdown_formatter.rs:136-189 | fails iff the text is empty (EmptyText) or the span runs past its end; otherwise the text with exactly the span replaced by its Markdown form |
| MarkdownFormatter.SignedKinds | src/utils/text/markdown_formatter.rs:136-189 | mentions, hashtags, cashtags and bot commands put their sign in front of the span and keep the rest |
| MarkdownFormatter.PlainKinds | src/utils/text/markdown_formatter.rs:136-189 | URLs, e-mails and phone numbers leave the text unchanged |
| MarkdownFormatter.ApplyEntityKindWholeText | src/utils/text/formatter.rs:110-130 | over a non-empty text shorter than 65536 characters, `apply_entity_kind` edits the whole text |
| SrcMessageEntity.New | src/types/message_entity.rs:33-44 | an entity with the type and span given and no optional field |
| SrcMessageEntity.WithOffset | src/types/message_entity.rs:46-50 | sets the offset and changes no other field |
| SrcMessageEntity.WithLength | src/types/message_entity.rs:52-56 | sets the length and changes no other field |
| SrcMessageEntity.WithUrl | src/types/message_entity.rs:58-62 | sets the URL and changes no other field |
| SrcMessageEntity.WithUser | src/types/message_entity.rs:64-68 | sets the user and changes no other field |
| SrcMessageEntity.WithLanguage | src/types/message_entity.rs:70-74 | sets the language and changes no other field |
| SrcMessageEntity.WithCustomEmojiId | src/types/message_entity.rs:76-80 | sets the custom emoji id and changes no other field |
| SrcMessageEntity.ExtractFromAsWritten | src/types/message_entity.rs:86-93 | as written, on ASCII text: the bytes from twice the offset to twice the end, twice as many as the entity's length |
| SrcMessageEntity.ExtractFrom | src/types/message_entity.rs:86-93 | corrected: the UTF-16 code units from the offset for the length, decoded back; never longer than the length |
| SrcMessageEntity.ExtractFromSpan | src/types/message_entity.rs:86-93 | an entity spanning the encoding of `b` inside `a + b + c` extracts exactly `b`, whatever characters they hold |
| SrcMessageEntity.ExtractWholeText | src/types/message_entity.rs:86-93 | an entity covering the whole text extracts the whole text |
| SrcMessageEntity.ByteSliceCounterexample | src/types/message_entity.rs:87-90 | in "hello", offset 1 and length 1 mean "e", but the code returns "ll" |
| Polling.Listen | telers/src/dispatcher.rs:416-506 | one `getUpdates` request per answer, each with the offset the earlier answers set and the fixed limit, timeout and allowed updates; every update received is passed on in order; the final offset and `failed` flag are those of the answers |
| Polling.OffsetAfter | telers/src/dispatcher.rs:445-469 | the offset is unset exactly while no non-empty batch has arrived |
| Polling.OffsetFromLatestBatch | telers/src/dispatcher.rs:445-469 | a set offset is one past the last update of the latest non-empty batch: some batch is non-empty, gives that value, and every batch after it is empty |
| Polling.ListenStep | telers/src/dispatcher.rs:437-504 | one more answer appends one request with the current offset; a non-empty batch moves the offset past its last update, appends its updates to those passed on and clears `failed`; a failure sets `failed`; an empty batch changes nothing else |
| Polling.Sent | telers/src/dispatcher.rs:445-494 | nothing is passed on exactly while no non-empty batch has arrived, and everything passed on came in some fetched batch |
| Polling.FailedAfter | telers/src/dispatcher.rs:437-504 | the flag is only set after some fetch failed, and never right after a non-empty batch |
| Polling.OffsetIsLastSentPlusOne | telers/src/dispatcher.rs:446-468 | the offset is one past the last update passed on, and unset before any update arrives |
| Polling.FailedIff | telers/src/dispatcher.rs:437-504 | the backoff stays engaged exactly when some fetch failed and no non-empty batch has arrived since; empty batches do not reset it |
| ReqwestSerializer.Written | src/serializers/reqwest.rs:448-463 | the buffer after the items were written one at a time: empty when none was, otherwise starting with the opening character |
| ReqwestSerializer.StructText | src/serializers/reqwest.rs:465-475 | the JSON object of the fields: starts with '{' and ends with '}' |
| ReqwestSerializer.SeqText | src/serializers/reqwest.rs:498-507 | the JSON array of the elements: starts with '[' and ends with ']' |
| ReqwestSerializer.WrittenIsJoin | src/serializers/reqwest.rs:448-496 | the buffer is the opening character followed by the items joined with commas |
| ReqwestSerializer.SeqTextElements | src/serializers/reqwest.rs:481-507 | the elements can be read back from the array text when none holds a comma |
| ReqwestSerializer.OneFieldText | src/serializers/reqwest.rs:448-475 | a struct with one field is `{"key":value}` |
| ReqwestSerializer.JsonPartSerializer.constructor | src/serializers/reqwest.rs:353-369 | a new part serializer for a struct or a sequence has an empty buffer and nothing written |
| ReqwestSerializer.JsonPartSerializer.SerializeField | src/serializers/reqwest.rs:448-463 | a value that fails to convert changes nothing and is the error; otherwise `{"key":value` is written first and `,"key":value` after |
| ReqwestSerializer.JsonPartSerializer.EndAsWritten | src/serializers/reqwest.rs:465-475 | as written: `{{}}` with no field, the JSON object of the fields otherwise |
| ReqwestSerializer.JsonPartSerializer.End | src/serializers/reqwest.rs:465-475 | corrected: always the JSON object of the fields, `{}` with none |
| ReqwestSerializer.JsonPartSerializer.SerializeElement | src/serializers/reqwest.rs:481-496 | a value that fails to convert changes nothing and is the error; otherwise `[value` is written first and `,value` after |
| ReqwestSerializer.JsonPartSerializer.EndSeq | src/serializers/reqwest.rs:498-507 | the JSON array of the elements, `[]` with none |
| ReqwestSerializer.EmptyStructAsWritten | src/serializers/reqwest.rs:467 | a struct without fields is sent as `{{}}`, which is not the JSON object `{}` |
| ReqwestSerializer.FieldTexts | src/serializers/reqwest.rs:448-463 | the fields' JSON texts, one per field, or the first field's error |
| ReqwestSerializer.ElementTexts | src/serializers/reqwest.rs:481-496 | the elements' JSON texts, one per element, or the first element's error |
| ReqwestSerializer.PartOf | src/serializers/reqwest.rs:269-369 | only structs, sequences and what `Some` wraps can fail; `Some(x)` is the part of `x`; a struct or sequence is the JSON text of its fields or elements, and fails exactly when one of them does |
| ReqwestSerializer.IntPartReadsBack | src/serializers/reqwest.rs:281-315 | an integer's part, bare or inside `Some`, is a text reading back as the integer |
| ReqwestSerializer.ScalarParts | src/serializers/reqwest.rs:281-350 | a boolean is `true` or `false`, a character or string is itself, a unit variant is its name |
| ReqwestSerializer.SerializeStructPart | src/serializers/reqwest.rs:353-475 | feeding a struct's fields in order and ending gives the part `PartOf` describes |
| ReqwestSerializer.FieldTextsErrorStays | src/serializers/reqwest.rs:448-463 | once a field fails, the whole struct fails with that error |
| ReqwestSerializer.ElementTextsErrorStays | src/serializers/reqwest.rs:481-496 | once an element fails, the whole sequence fails with that error |
| ReqwestSerializer.SerializeSeqPart | src/serializers/reqwest.rs:364-507 | feeding a sequence's elements in order and ending gives the part `PartOf` describes |
| ReqwestSerializer.FormOf | src/serializers/reqwest.rs:254-266 | succeeds iff every field has a part, and then has one part per field under the field's key, in order |
| ReqwestSerializer.Multipart | src/serializers/reqwest.rs:64-248 | anything but a struct is refused at the top level; a struct becomes the form of its fields |
| ReqwestSerializer.TopLevelOnlyStruct | src/serializers/reqwest.rs:84-248 | integers, strings, sequences and options are refused at the top level |
| ReqwestSerializer.MultipartSerializer.constructor | src/serializers/reqwest.rs:56-62 | a new serializer holds an empty form |
| ReqwestSerializer.MultipartSerializer.SerializeField | src/serializers/reqwest.rs:254-262 | a field's part is added under its key; a failing part is the error and leaves the form as it was |
| ReqwestSerializer.FormOfErrorStays | src/serializers/reqwest.rs:254-262 | once a field fails, the whole form fails with that error |
| ReqwestSerializer.FormOfStep | src/serializers/reqwest.rs:254-262 | one more field adds its part to the form, or fails with its error |
| ReqwestSerializer.Serialize | src/serializers/reqwest.rs:64-266 | serializing a request field by field gives the form `Multipart` describes |
| SimpleObserver.RunAllAppend | src/event/simple/observer.rs:121-127 | running two lists of handlers is running the first and then, unless it failed, the second from where the first left off |
| SimpleObserver.StopsAtFirstError | src/event/simple/observer.rs:121-127 | the first failing handler's error is the run's, and the handlers after it never run |
| SimpleObserver.NoHandlers | src/event/simple/observer.rs:121-127 | with no handlers the run succeeds and changes nothing |
| SimpleObserver.Trigger | src/event/simple/observer.rs:121-127 | the loop runs the handlers in order and returns the first error at once; its outcome is the run of all handlers |
| SimpleObserver.Observer.constructor | src/event/simple/observer.rs:19-25 | a new observer has its event name and no handlers |
| SimpleObserver.Observer.Register | src/event/simple/observer.rs:32-41 | the handler is added after the others |
| SimpleObserver.Observer.ToService | src/event/simple/observer.rs:80-97 | the service keeps the event name and the handlers in registration order |
| SimpleObserver.RegisteredLastRunsLast | src/event/simple/observer.rs:139-184 | a handler registered last runs after all the others, and only when none of them failed |
| SimpleObserver.TriggerEachIsOneRun | src/router.rs:911-919 | triggering observers one after another is one run of all their handlers in order |
| SimpleObserver.EmitEach | src/router.rs:911-929 | the loop over a router's and its sub-routers' observers returns the first error at once; its outcome is that of triggering them in turn |
| SrcChat.ChatTypeOf | src/types/chat.rs:78-86 | a known type is the one named by the raw string; None exactly when no chat type has that name |
| SrcChat.ChatTypeRoundTrip | src/types/chat.rs:78-86 | every chat type's name maps back to that type |
| SrcChat.IsPrivate | src/types/chat.rs:89-92 | holds exactly when the raw type string is "private" |
| SrcChat.IsGroup | src/types/chat.rs:94-97 | holds exactly when the raw type string is "group" |
| SrcChat.IsSupergroup | src/types/chat.rs:99-102 | holds exactly when the raw type string is "supergroup" |
| SrcChat.IsGroupOrSupergroup | src/types/chat.rs:104-107 | holds exactly when the raw type string is "group" or "supergroup" |
| SrcChat.IsChannel | src/types/chat.rs:109-112 | holds exactly when the raw type string is "channel" |
| SrcChat.Predicates | src/types/chat.rs:89-112 | an unknown type makes every predicate false, and no chat is both private and a channel or both group and supergroup |
| SrcInnerMiddleware.WrapFromSteps | src/middlewares/inner/base.rs:85-121 | the chain calls the next middleware with the chain of the rest; once exhausted it calls the handler, turning a failed extraction into `Extraction` and a handler error into `Handler` |
| SrcInnerMiddleware.TransparentFrom | src/middlewares/inner/base.rs:85-121 | middlewares that only pass the request on leave the handler's outcome unchanged |
| SrcInnerMiddleware.ChainOrderFrom | src/middlewares/inner/base.rs:94-100 | the middlewares run in order: when each rewrites the request and passes it on, the handler sees the rewrites applied first to last |
| SrcObserver.CallHandler | src/event/telegram/observer.rs:276-289 | with no inner middleware the handler is called directly, an extraction failure becoming an event error and a handler error kept in the response; otherwise the first middleware is called with the chain of the others |
| SrcObserver.Trigger | src/event/telegram/observer.rs:256-336 | the loop over the handlers computes the outcome the observer's rules define |
| SrcObserver.OutcomeFrom | src/event/telegram/observer.rs:270-336 | a result is about the event given; with no remaining handler whose filters accept it the event is unhandled, and a rejected or handled result needs one that does |
| SrcObserver.Outcome | src/event/telegram/observer.rs:256-336 | a result is about the event given; the observer filters' refusal rejects; when no handler's filters accept the event it is unhandled; a handled event passed some handler's filters |
| SrcObserver.PassOver | src/event/telegram/observer.rs:270-298 | handlers whose filters fail or that skip do not affect the outcome |
| SrcObserver.OutcomeCases | src/event/telegram/observer.rs:256-336 | failing observer filters reject; if every handler is passed over the event is unhandled; otherwise the first handler that passes and does not skip decides: its call's error is returned, Cancel rejects, and Finish or a handler error count as handled |
| SrcExtractors.BotOf | src/extractors/types.rs:17-42 | extracting the bot always succeeds with the request's bot |
| SrcExtractors.UpdateOf | src/extractors/types.rs:45-70 | extracting the update always succeeds with the request's update |
| SrcExtractors.ContextOf | src/extractors/types.rs:76-86 | extracting the context always succeeds with the request's context |
| SrcExtractors.PayloadOf | src/extractors/types.rs:104-185 | a payload is the payload type's conversion of the update, whatever the bot and context |
| SrcExtractors.MessageOf | src/extractors/types.rs:90-100 | fails, naming `Message`, iff the update has no message, edited message, channel post or edited channel post; a plain message is taken first |
| SrcExtractors.EmptyUpdateExample | src/extractors/types.rs:17-100 | on an update without an event, the bot, update and context extractors succeed and the message extractor fails |
| SrcMessage.SenderUserId | src/types/message.rs:169-185 | present exactly when the message has a sender user, and then that user's id (also the `user_id` alias) |
| SrcMessage.ForwardUserId | src/types/message.rs:187-195 | present exactly when the message was forwarded from a user, and then that user's id |
| SrcMessage.SenderChatIdAsWritten | src/types/message.rs:197-201 | the accessor as written returns the id of the message's own chat, whatever chat sent it |
| SrcMessage.SenderChatId | src/types/message.rs:197-201 | corrected: present exactly when the message was sent on behalf of a chat, and then that chat's id |
| SrcMessage.SenderChatIdDiffers | src/types/message.rs:197-201 | a message in chat 1 sent on behalf of chat 2: the as-written accessor gives 1, the sender chat is 2 |
| SrcMessage.ChatId | src/types/message.rs:203-209 | the id of the chat the message belongs to |
| SrcMessage.ForwardChatId | src/types/message.rs:211-219 | present exactly when the message was forwarded from a chat, and then that chat's id |
| SrcMessage.ViaBotId | src/types/message.rs:221-229 | present exactly when the message was sent via a bot, and then that bot's id |
| SrcMessage.UserSharedId | src/types/message.rs:231-239 | present exactly when a user was shared, and then the shared user's id |
| SrcMessage.TextOrCaption | src/types/message.rs:241-252 | the text when there is one, otherwise the caption; absent exactly when both are |
| SrcMessage.FileId | src/types/message.rs:260-284 | the file id of the first attachment present in priority order (the last size of a photo); absent exactly when there is no attachment; a consulted photo list must be non-empty |
| SrcMessage.AudioWins | src/types/message.rs:263-266 | an audio attachment's file id wins over every other attachment, even an empty photo list |
| SrcMessage.FromUpdate | src/types/message.rs:286-302 | the first present of message, edited message, channel post, edited channel post; an error naming "Message" exactly when none is present |
| SrcMessage.FromUpdateCases | src/types/message.rs:286-302 | the conversion fails exactly when all four fields are absent, and otherwise returns one of them |
| RouterCommon.RoutedTypes | src/router.rs:456-476 | a router routes fourteen update types, in the order of its telegram observers, and none of the reaction or chat-boost types |
| RouterCommon.TelegramObservers | src/router.rs:456-476 | fifteen observers: one per routed type in that order, then the `update` observer |
| RouterCommon.EventNameParses | src/router.rs:524-536 | an observer's event name parses back as its update type; the `update` observer's name does not parse |
| RouterCommon.RegisterAtFront | src/router.rs:605-611 | inserting middlewares one by one at the next position puts all of them, in order, ahead of those already registered |
| RouterCommon.RunOuterMiddlewares | src/router.rs:747-773 | the outer-middleware loop computes the reference definition: a finishing middleware's rewrite is kept, a skipping one's dropped, a cancelling one stops propagation, an error is returned |
| RouterCommon.OuterAllFinish | src/router.rs:747-773 | when every outer middleware finishes, the observer receives their rewrites of the request applied first to last |
| RouterCommon.OuterSameRest | src/router.rs:747-773 | the loop's result depends only on the middlewares still to run |
| RouterCommon.SkippingMiddlewareIgnored | src/router.rs:759-764 | a middleware that always skips gives the same result as not registering it |
| SrcRouter.EmptyObserver | src/router.rs:411-426 | a new observer carries its event name and has no handlers and no middlewares |
| SrcRouter.Router.constructor | src/router.rs:407-430 | a new router has no sub-routers and every observer empty and named after its update type |
| SrcRouter.Router.IncludeRouter | src/router.rs:436-439 | the router is appended after the sub-routers included before it; nothing else changes |
| SrcRouter.Router.ResolveUsedUpdateTypesWithSkip | src/router.rs:517-556 | the router's result equals the used-types definition on its value |
| SrcRouter.Contribution | src/router.rs:524-541 | an observer contributes its type exactly when it has handlers and the type is not skipped |
| SrcRouter.ResolveWithSkip | src/router.rs:517-556 | own observers' contributions, then every sub-router's result, equal the used-types definition |
| SrcRouter.ResolveUsedUpdateTypes | src/router.rs:559-561 | resolution with nothing skipped |
| SrcRouter.SkipRemoves | src/router.rs:517-556 | resolving with a skip set equals resolving everything and removing the skipped types |
| SrcRouter.SubRouterTypesIncluded | src/router.rs:545-549 | every sub-router's used types are among its parent's |
| SrcRouter.NamesParseIffNoUpdateHandlers | src/router.rs:524-536 | for routers whose observers carry their own names, resolution does not panic exactly when no `update` observer in the tree has handlers |
| SrcRouter.OwnTypesOfWellNamed | src/router.rs:524-541 | for such a router, its own types are the routed types whose observers have handlers, minus the skipped ones |
| SrcRouter.BuildObserver | src/router.rs:636-650 | an observer's service has the configuration's outer and inner middlewares ahead of its own |
| SrcRouter.ToServiceProvider | src/router.rs:598-699 | the service keeps the router's name, one service per sub-router, and its startup and shutdown observers |
| SrcRouter.RootService | src/router.rs:598-699 | the same for the root router, which inherits nothing |
| SrcRouter.InheritedAlongPath | src/router.rs:603-612 | every router of the tree gets, ahead of each observer's own inner middlewares, the configuration's ones, then its ancestors' from the root down |
| SrcRouter.ObserverByUpdateTypeNamed | src/router.rs:960-981 | in a tree of routers whose observers carry their own names, the observer found for a type is the one named after it |
| SrcRouter.PropagateUpdateEvent | src/router.rs:838-909 | the `update` observer's propagation computes its reference definition |
| SrcRouter.PropagateEvent | src/router.rs:733-835 | propagation computes its reference definition |
| SrcRouter.PropagateFromObserver | src/router.rs:776-803 | the observer stage computes its reference definition |
| SrcRouter.PropagateToSubRouters | src/router.rs:806-828 | the sub-router loop computes its reference definition |
| SrcRouter.PropagateCases | src/router.rs:733-835 | errors of the update run, the outer middlewares or the observer are returned; a cancel rejects; handled is returned; an observer's reject becomes unhandled; unhandled goes on to the sub-routers |
| SrcRouter.Propagate | src/router.rs:733-835 | a Rejected result needs an outer middleware of the type's observer or a sub-router |
| SrcRouter.ObserverStage | src/router.rs:776-835 | the observer stage answers Rejected only through a sub-router |
| SrcRouter.SubRoutersFrom | src/router.rs:806-834 | the loop ends Unhandled, with the event it was given, only when every remaining sub-router leaves it unhandled |
| SrcRouter.SubRoutersPassOver | src/router.rs:806-814 | sub-routers that leave the event unhandled pass it on to the next |
| SrcRouter.FirstConcludingSubRouter | src/router.rs:806-834 | the first sub-router that does not leave the event unhandled decides the result, rejected included; when all leave it unhandled, so does the router |
| SrcRouter.UpdateRunOnlyErrors | src/router.rs:741 | the `update` observer's run affects propagation only through its errors |
| SrcRouter.StartupObservers | src/router.rs:912-919 | the router's own startup observer, then its direct sub-routers' ones; deeper routers are not reached |
| SrcRouter.ShutdownObservers | src/router.rs:922-929 | the same for shutdown |
| SrcRouter.EmitStartup | src/router.rs:912-919 | triggers the startup observers in that order, stopping at the first error |
| SrcRouter.EmitShutdown | src/router.rs:922-929 | triggers the shutdown observers in that order, stopping at the first error |
| SrcUpdate.UserOf | src/types/update.rs:47-83 | the user of the first present field in the accessor's priority order (a message's possibly missing sender first), also under the `from` alias |
| SrcUpdate.UserId | src/types/update.rs:85-93 | present exactly when the update has a user, and then that user's id |
| SrcUpdate.ChatOf | src/types/update.rs:95-121 | the chat of the first present field in priority order; a callback query without a message gives no chat even when later fields are set |
| SrcUpdate.ChatId | src/types/update.rs:123-131 | present exactly when the update has a chat, and then that chat's id |
| SrcUpdate.UserAndChat | src/types/update.rs:133-139 | the pair of the update's user and chat |
| SrcUpdate.Text | src/types/update.rs:141-191 | the text of the first present field in priority order; for a message-like field its text, else its caption |
| SrcUpdate.MessageThreadId | src/types/update.rs:193-217 | only a message, an edited message or a callback's message give a thread id, in that order, also under the `thread_id` alias |
| SrcUpdate.UserIgnoresChannelPostAndPoll | src/types/update.rs:47-75 | channel posts, edited channel posts and polls never affect the user of an update |
| SrcUpdate.ChannelPostOnly | src/types/update.rs:47-217 | an update carrying only a channel post has its chat and text but no user and no thread id |
| TelersCallbackQuery.ChatId | telers/src/types/callback_query.rs:31-43 | present exactly when the query has a message, and then that message's chat id whether the message is accessible or not |
| TelersCallbackQuery.MessageId | telers/src/types/callback_query.rs:45-57 | present exactly when the query has a message, and then its id whether accessible or not |
| TelersCallbackQuery.MessageText | telers/src/types/callback_query.rs:59-69 | absent unless the message is accessible, and then the message's text |
| TelersCallbackQuery.MessageCaption | telers/src/types/callback_query.rs:71-81 | absent unless the message is accessible, and then the message's caption |
| TelersCallbackQuery.MessageTextOrCaption | telers/src/types/callback_query.rs:83-93 | absent unless the message is accessible, and then its text or caption |
| TelersCallbackQuery.TextOrCaptionPrefersText | telers/src/types/callback_query.rs:59-93 | the text-or-caption is the message text when there is one, else the caption |
| TelersCallbackQuery.FromUpdate | telers/src/types/callback_query.rs:96-105 | succeeds exactly for a callback-query update, with its query; otherwise the error names "Update" and "CallbackQuery" |
| TelersHandler.HandlerCall | telers/src/event/telegram/handler.rs:202-242 | succeeds exactly when argument extraction does, recording the request and the handler's result on the extracted arguments; otherwise returns the extraction error without calling the handler |
| TelersHandler.PassesAllAppend | telers/src/event/telegram/handler.rs:128-145 | appending filters conjoins them with the filters already there |
| TelersHandler.Check | telers/src/event/telegram/handler.rs:177-187 | true exactly when every filter accepts the request; no filters accept |
| TelersHandler.HandlerObject.constructor | telers/src/event/telegram/handler.rs:112-125 | a new handler object has its service and no filters |
| TelersHandler.HandlerObject.Filter | telers/src/event/telegram/handler.rs:128-134 | one more filter after the others; the service is unchanged |
| TelersHandler.HandlerObject.Filters | telers/src/event/telegram/handler.rs:136-145 | the given filters after the others, in order; the service is unchanged |
| TelersHandler.HandlerObject.NewService | telers/src/event/telegram/handler.rs:154-161 | the service object carries the same service and filters |
| TelersInnerMiddleware.CallService | telers/src/middlewares/inner/base.rs:96-106 | at the end of the chain an extraction failure becomes an extraction event error, a handler error a handler event error, and a successful result is returned |
| TelersInnerMiddleware.TransparentChain | telers/src/middlewares/inner/base.rs:84-119 | middlewares that only pass the request on leave the outcome as the bare service at the chain's end gives it |
| TelersInnerMiddleware.ChainOrder | telers/src/middlewares/inner/base.rs:84-119 | middlewares run outer to inner in registration order: the handler sees the request rewritten by the first middleware first |
| TelersObserver.CallHandler | telers/src/event/telegram/observer.rs:276-288 | with inner middlewares the first one is called with the rest of the chain; without, the bare service, whose extraction error becomes an event error and whose handler result is kept |
| TelersObserver.Trigger | telers/src/event/telegram/observer.rs:248-335 | the trigger computes its reference definition: common filters, then each handler in order until one concludes |
| TelersObserver.OutcomeFrom | telers/src/event/telegram/observer.rs:267-335 | a result is about the event given; with no remaining handler whose filters accept it the event is unhandled, and a rejected or handled result needs one that does |
| TelersObserver.Outcome | telers/src/event/telegram/observer.rs:248-335 | a result is about the event given; the common filters' refusal rejects; when no handler's filters accept the event it is unhandled; a handled event passed some handler's filters |
| TelersObserver.PassOver | telers/src/event/telegram/observer.rs:267-299 | handlers whose filters refuse or that skip do not affect the outcome |
| TelersObserver.CommonFiltersReject | telers/src/event/telegram/observer.rs:257-265 | an event the observer-level filters refuse is rejected before any handler is tried |
| TelersObserver.FirstConcludingHandler | telers/src/event/telegram/observer.rs:267-327 | the first handler that passes its filters and does not skip decides: a call error is returned, cancel rejects, finish or a handler error is handled with the response |
| TelersObserver.AllPassedOverIsUnhandled | telers/src/event/telegram/observer.rs:329-335 | when every handler is passed over the event is unhandled |
| TelersObserver.HandlerErrorDependsOnMiddlewares | telers/src/event/telegram/observer.rs:276-327 | a handler error is a handled outcome without inner middlewares but an event error through any chain of them, even pass-through ones |
| TelersObserver.LaterHandlersIgnored | telers/src/event/telegram/observer.rs:267-327 | handlers after the concluding one never affect the outcome |
| TelersObserver.AppendedHandlerTriedLast | telers/src/event/telegram/observer.rs:135-148 | a handler registered last is tried only when every earlier one leaves the event unhandled |
| TelersObserver.AddedCommonFilter | telers/src/event/telegram/observer.rs:163-170 | an added observer-level filter rejects exactly the events it refuses and leaves every other outcome unchanged |
| TelersObserver.Services | telers/src/event/telegram/observer.rs:212-227 | one built service per handler, in order |
| TelersObserver.Observer.constructor | telers/src/event/telegram/observer.rs:111-127 | a new observer has its event name, no handlers, no common filters and no middlewares |
| TelersObserver.Observer.ToService | telers/src/event/telegram/observer.rs:212-227 | the service keeps the event name, the inner middlewares, the common handler's service and every handler's service in order |
| TelersObserver.Observer.Register | telers/src/event/telegram/observer.rs:135-148 | a new filterless handler is appended after the others and returned; the built service gains exactly that handler |
| TelersObserver.Observer.Filter | telers/src/event/telegram/observer.rs:163-170 | the common handler gains one filter; the built service changes in exactly that |
| TelersDispatcher.DefaultWithBackoff | telers/src/dispatcher.rs:175-206 | a new builder has the router's default, no bots, the default polling timeout, the given backoff and no update types |
| TelersDispatcher.MainRouter | telers/src/dispatcher.rs:211-242 | replaces the main router and keeps every other field, also under the `router` alias |
| TelersDispatcher.AddBot | telers/src/dispatcher.rs:248-253 | appends one bot after the bots already given and keeps every other field |
| TelersDispatcher.AddBots | telers/src/dispatcher.rs:261-266 | appends the given bots in order after those already given and keeps every other field |
| TelersDispatcher.PollingTimeout | telers/src/dispatcher.rs:272-277 | sets the polling timeout and keeps every other field |
| TelersDispatcher.Backoff | telers/src/dispatcher.rs:282-287 | replaces the backoff and keeps every other field |
| TelersDispatcher.AllowedUpdate | telers/src/dispatcher.rs:294-299 | appends one update type after those already given and keeps every other field |
| TelersDispatcher.AllowedUpdates | telers/src/dispatcher.rs:307-312 | appends the given update types without replacing any and keeps every other field |
| TelersDispatcher.Build | telers/src/dispatcher.rs:315-324 | the dispatcher carries every field of the builder |
| TelersDispatcher.AddBotsIsEachBot | telers/src/dispatcher.rs:248-266 | adding several bots at once equals adding each in turn |
| TelersDispatcher.AllowedUpdatesIsEachUpdate | telers/src/dispatcher.rs:294-312 | allowing several update types at once equals allowing each in turn |
| TelersDispatcher.BuilderExample | telers/src/dispatcher.rs:248-324 | one bot added singly and one as a list, a timeout of 123, and one then two more update types give two bots, that timeout, three types and the chosen router |
| TelersDispatcher.FeedUpdateWithContext | telers/src/dispatcher.rs:389-413 | the main router propagates the request of bot, update and context under the type of the update's kind |
| TelersDispatcher.FeedUpdate | telers/src/dispatcher.rs:370-384 | the same with a new, empty context |
| TelersDispatcher.FeedUpdateByKind | telers/src/dispatcher.rs:389-413 | two updates of the same kind reach the router under the same type whatever their payloads |
| TelersDispatcher.AllowedNames | telers/src/dispatcher.rs:430-433 | one name per allowed update type, each parsing back to its type |
| TelersDispatcher.ListenUpdates | telers/src/dispatcher.rs:416-508 | over a finite run of server answers: every request carries the allowed names, the limit, the timeout and the offset one past the last update received so far; the updates are forwarded in order; the failure flag is that of the last answer |
| TelersExtractors.OptionOf | telers/src/extractors/extractor.rs:30-46 | never fails; holds the argument exactly when the inner extraction succeeds |
| TelersExtractors.ResultOf | telers/src/extractors/extractor.rs:48-66 | never fails; holds the inner outcome itself, its error converted |
| TelersExtractors.UnitOf | telers/src/extractors/extractor.rs:68-80 | the unit argument always extracts |
| TelersExtractors.FirstFailure | telers/src/extractors/extractor.rs:88-96 | the parts before the index extract and, when the index is inside the tuple, the part there fails |
| TelersExtractors.Tuple | telers/src/extractors/extractor.rs:88-96 | a tuple of up to twenty parts extracts exactly when every part does, with every part's value in order; otherwise its error is the first failing part's, converted |
| TelersExtractors.TupleOfOptionsNeverFails | telers/src/extractors/extractor.rs:30-96 | a tuple of optional parts never fails and holds a value exactly at the parts that extract |
| TelersExtractors.BotOf | telers/src/extractors/types.rs:7-29 | the bot always extracts, as the bot the handler was called with |
| TelersExtractors.UpdateOf | telers/src/extractors/types.rs:31-53 | the update always extracts, as the update itself |
| TelersExtractors.ContextOf | telers/src/extractors/types.rs:55-65 | the shared context always extracts, as itself |
| TelersExtractors.PassthroughTuple | telers/src/extractors/extractor.rs:88-96 | a handler asking for the bot and the context gets the two values it was called with, in that order, and never fails |
| TelersMessage.DefaultMessage | telers/src/types/message.rs:2927-2932 | the default message is an empty text message with no sender and no thread |
| TelersMessage.TextOf | telers/src/types/message.rs:1960-1966 | present exactly for a text message, with its text |
| TelersMessage.CaptionOf | telers/src/types/message.rs:1968-1982 | only animation, audio, document, video, voice and photo messages give a caption, their own |
| TelersMessage.TextOrCaption | telers/src/types/message.rs:1984-1991 | the text when there is one, else the caption |
| TelersMessage.ViaBot | telers/src/types/message.rs:1924-1958 | the via-bot of the variants that carry one, absent for every other variant |
| TelersMessage.FromId | telers/src/types/message.rs:2055-2061 | present exactly when the message has a sender user, with that user's id |
| TelersMessage.SenderChatId | telers/src/types/message.rs:2129-2135 | present exactly when the message has a sender chat, with that chat's id |
| TelersMessage.MigrateToChatId | telers/src/types/message.rs:2904-2913 | present exactly for a migrate-to-chat message, with the target chat id |
| TelersMessage.MigrateFromChatId | telers/src/types/message.rs:2915-2924 | present exactly for a migrate-from-chat message, with the source chat id |
| TelersMessage.MaxIndexByKey | telers/src/types/message.rs:511-513 | an index of a maximal key, after which every key is smaller: the last maximum, as Rust's `max_by_key` picks |
| TelersMessage.MinIndexByKey | telers/src/types/message.rs:517-519 | an index of a minimal key, before which every key is larger: the first minimum, as Rust's `min_by_key` picks |
| TelersMessage.MaxByKey | telers/src/types/message.rs:511-525 | absent exactly for an empty list; otherwise an element of the list whose key no element exceeds |
| TelersMessage.MinByKey | telers/src/types/message.rs:517-531 | absent exactly for an empty list; otherwise an element whose key is at most every element's |
| TelersMessage.PhotoOf | telers/src/types/message.rs:2820-2826 | present exactly for a photo message, with its sizes |
| TelersMessage.LargestPhoto | telers/src/types/message.rs:2828-2835 | absent unless the message is a photo, and then the size of greatest width plus height |
| TelersMessage.SmallestPhoto | telers/src/types/message.rs:2837-2844 | absent unless the message is a photo, and then the size of least width plus height |
| TelersMessage.LargestPhotoByFileSize | telers/src/types/message.rs:2846-2853 | absent unless the message is a photo, and then the size with the greatest optional file size |
| TelersMessage.SmallestPhotoByFileSize | telers/src/types/message.rs:2855-2862 | absent unless the message is a photo, and then the size with the least optional file size |
| TelersMessage.SizeRankIsOptionOrder | telers/src/types/message.rs:523-531 | the integer rank orders optional file sizes exactly as Rust orders them, a missing size below every present one |
| TelersMessage.PhotoTieBreak | telers/src/types/message.rs:511-519 | a photo message with sizes has a largest and a smallest; among equal maxima the last wins, among equal minima the first |
| TelersMessage.MessageInto | telers/src/types/message.rs:2934-3000 | the conversion to a variant succeeds exactly when the message is that variant, giving the message; otherwise the error names "Message" and the variant |
| TelersMessage.MessageFromUpdate | telers/src/types/message.rs:3002-3014 | succeeds exactly for a message, edited message, channel post or edited channel post update, with its message; otherwise the error names "Update" and "Message" |
| TelersMessage.VariantFromUpdate | telers/src/types/message.rs:3016-3078 | a non-message update fails as a message; a message update converts as its message does |
| TelersMessage.VariantFromUpdateExact | telers/src/types/message.rs:3016-3078 | conversion of an update to a variant succeeds exactly when the update carries a message of that variant, and gives that message |
| TelersPoll.DefaultPoll | telers/src/types/poll.rs:67-71 | the default poll is a regular poll with an empty question |
| TelersPoll.RegularFromPoll | telers/src/types/poll.rs:73-83 | succeeds exactly for a regular poll, giving back what it wraps; otherwise the error names "Poll" and "Regular" |
| TelersPoll.QuizFromPoll | telers/src/types/poll.rs:85-95 | succeeds exactly for a quiz, giving back what it wraps; otherwise the error names "Poll" and "Quiz" |
| TelersPoll.PollFromUpdate | telers/src/types/poll.rs:97-106 | succeeds exactly for a poll update, with its poll; otherwise the error names "Update" and "Poll" |
| TelersPoll.RegularFromUpdate | telers/src/types/poll.rs:108-114 | succeeds exactly on a poll update carrying a regular poll, with that poll; a non-poll update fails with the "Update"/"Poll" error, a quiz with the "Poll"/"Regular" error |
| TelersPoll.QuizFromUpdate | telers/src/types/poll.rs:116-122 | succeeds exactly on a poll update carrying a quiz, with that quiz; a non-poll update fails with the "Update"/"Poll" error, a regular poll with the "Poll"/"Quiz" error |
| TelersPoll.ConversionRoundTrip | telers/src/types/poll.rs:67-95 | wrapping a regular poll or a quiz and converting back gives it again; the default poll converts to a regular one |
| TelersUpdate.KindText | telers/src/types/update.rs:71-100 | a message-like kind gives its message's text, inline and chosen results their query, a callback query its data, shipping and pre-checkout queries their payload; nothing else gives text |
| TelersUpdate.KindCaption | telers/src/types/update.rs:102-133 | a message-like kind gives its message's caption, a callback query its message's caption; nothing else gives one |
| TelersUpdate.KindTextOrCaption | telers/src/types/update.rs:135-141 | the text when there is one, else the caption |
| TelersUpdate.KindFrom | telers/src/types/update.rs:143-166 | the sender of each kind: a message's sender, a poll answer's or reaction's user, a premium boost's user; polls, reaction counts and removed boosts have none |
| TelersUpdate.KindFromId | telers/src/types/update.rs:168-174 | present exactly when the kind has a sender, with that user's id |
| TelersUpdate.KindChat | telers/src/types/update.rs:176-210 | a message-like kind gives its message's chat, a callback query the chat of its message, a reaction its actor chat; queries and answers give none |
| TelersUpdate.KindChatId | telers/src/types/update.rs:212-218 | present exactly when the kind has a chat, with that chat's id |
| TelersUpdate.KindSenderChat | telers/src/types/update.rs:221-252 | only message-like kinds and callback queries with an accessible message give a sender chat |
| TelersUpdate.KindSenderChatId | telers/src/types/update.rs:254-260 | present exactly when the kind has a sender chat, with that chat's id |
| TelersUpdate.KindMessageThreadId | telers/src/types/update.rs:263-294 | only message-like kinds and callback queries with an accessible message give a thread id |
| TelersUpdate.DefaultKind | telers/src/types/update.rs:297-302 | the default kind is a message kind holding the default message |
| TelersUpdate.KindOf | telers/src/types/update.rs:304-309 | an update is exactly its id and its kind |
| TelersUpdate.CallbackAccessorsAgree | telers/src/types/update.rs:176-218 | for a callback query the kind's chat id and text-or-caption agree with the callback query's own accessors |
| TelersUpdate.DecodePayload | telers/src/types/update.rs:355-402 | a decoded payload is a kind of the update type it was decoded for |
| TelersUpdate.DeserializeKind | telers/src/types/update.rs:325-412 | no key is an error; an unknown first key is an error naming it; a success comes from a first key that names the kind's update type |
| TelersUpdate.FirstKeyDecides | telers/src/types/update.rs:325-412 | only the first entry is read; it succeeds exactly when its payload decodes as its type, and then gives a kind of that type |
| TelersUpdate.NamedEntryReads | telers/src/types/update.rs:337-412 | an entry keyed by an update type's name and holding a decodable payload reads as that payload's kind |
| TelersUser.FullName | telers/src/types/user.rs:38-46 | the first name, followed by a space and the last name exactly when there is a last name |
| TelersUser.New | telers/src/types/user.rs:50-63 | a new user has the given id, bot flag and first name and every optional field absent |
| TelersUser.SetId | telers/src/types/user.rs:67-69 | sets the id and changes no other field |
| TelersUser.SetIsBot | telers/src/types/user.rs:72-77 | sets the bot flag and changes no other field |
| TelersUser.SetFirstName | telers/src/types/user.rs:80-85 | sets the first name and changes no other field |
| TelersUser.SetLastName | telers/src/types/user.rs:88-93 | sets the last name to the given value and changes no other field |
| TelersUser.SetLastNameOption | telers/src/types/user.rs:154-159 | sets the last name to the given optional value, absent included, and changes no other field |
| TelersUser.SetUsername | telers/src/types/user.rs:96-101 | sets the username to the given value and changes no other field |
| TelersUser.SetUsernameOption | telers/src/types/user.rs:162-167 | sets the username to the given optional value, absent included, and changes no other field |
| TelersUser.SetLanguageCode | telers/src/types/user.rs:104-109 | sets the language code to the given value and changes no other field |
| TelersUser.SetLanguageCodeOption | telers/src/types/user.rs:170-175 | sets the language code to the given optional value, absent included, and changes no other field |
| TelersUser.SetIsPremium | telers/src/types/user.rs:112-117 | sets the premium flag to the given value and changes no other field |
| TelersUser.SetIsPremiumOption | telers/src/types/user.rs:178-183 | sets the premium flag to the given optional value, absent included, and changes no other field |
| TelersUser.SetAddedToAttachmentMenu | telers/src/types/user.rs:120-125 | sets the attachment-menu flag to the given value and changes no other field |
| TelersUser.SetAddedToAttachmentMenuOption | telers/src/types/user.rs:186-191 | sets the attachment-menu flag to the given optional value, absent included, and changes no other field |
| TelersUser.SetCanJoinGroups | telers/src/types/user.rs:128-133 | sets the join-groups flag to the given value and changes no other field |
| TelersUser.SetCanJoinGroupsOption | telers/src/types/user.rs:194-199 | sets the join-groups flag to the given optional value, absent included, and changes no other field |
| TelersUser.SetCanReadAllGroupMessages | telers/src/types/user.rs:136-141 | sets the read-all-messages flag to the given value and changes no other field |
| TelersUser.SetCanReadAllGroupMessagesOption | telers/src/types/user.rs:202-207 | sets the read-all-messages flag to the given optional value, absent included, and changes no other field |
| TelersUser.SetSupportsInlineQueries | telers/src/types/user.rs:144-149 | sets the inline-queries flag to the given value and changes no other field |
| TelersUser.SetSupportsInlineQueriesOption | telers/src/types/user.rs:210-215 | sets the inline-queries flag to the given optional value, absent included, and changes no other field |
| TelersUser.BuilderBuilds | telers/src/types/user.rs:50-216 | `new` followed by every optional setter rebuilds any user exactly; a new user's full name is its first name |
| TelersUser.SetterLaws | telers/src/types/user.rs:38-216 | a plain setter is its optional setter given a value; of two writes to the last name the later wins; the full name follows the names set |
| TextBuilder.ApplyEntityWith | src/utils/text/formatter.rs:95-97 | the chosen formatter's `apply_entity`: fails exactly on an empty text or a span past the end, and otherwise splices the formatter's markup over exactly the span |
| TextBuilder.QuoteWithReadsBack | src/utils/text/formatter.rs:83-86 | a quoted text reads back as the text, for HTML always and for Markdown when its pattern quotes the backslash |
| TextBuilder.ConcatAppend | telers/src/utils/text/builder.rs:35-42 | appending two lists of pieces in turn is appending them together |
| TextBuilder.QuoteAll | telers/src/utils/text/builder.rs:53-67 | one quoted piece per piece, in order |
| TextBuilder.AppendedEntityFits | telers/src/utils/text/builder.rs:101-108 | the entity a styled method applies, at the old length over the piece's length both truncated to `u16`, never fails on a non-empty text |
| TextBuilder.AppendedEntityEdits | telers/src/utils/text/builder.rs:186-193 | while both lengths fit in a `u16` that entity turns the text into the old text followed by the formatted piece |
| TextBuilder.Builder.constructor | telers/src/utils/text/builder.rs:19-24 | a new builder has the formatter and an empty text |
| TextBuilder.Builder.Text | telers/src/utils/text/builder.rs:28-31 | the piece is appended as it is |
| TextBuilder.Builder.Texts | telers/src/utils/text/builder.rs:35-42 | every piece is appended as it is, in order |
| TextBuilder.Builder.Quote | telers/src/utils/text/builder.rs:46-49 | the piece is appended as the formatter quotes it |
| TextBuilder.Builder.Quotes | telers/src/utils/text/builder.rs:53-67 | every piece is quoted, then all are appended in order |
| TextBuilder.Builder.AddEntity | telers/src/utils/text/builder.rs:77-91 | succeeds exactly when the formatter applies the entity to the text, which is then replaced by the result; on failure the formatter's error is returned and the text is unchanged |
| TextBuilder.Builder.Styled | telers/src/utils/text/builder.rs:101-108 | the shape every styled method shares: the piece is appended and the entity over it applied; a non-empty text never fails; while the lengths fit in a `u16` the result is the old text followed by the formatted piece |
| TextBuilder.Builder.Mention | telers/src/utils/text/builder.rs:101-108 | the piece is appended and a mention entity over exactly it applied; while the lengths fit in a `u16` the text becomes the old text followed by the formatted piece |
| TextBuilder.Builder.Hashtag | telers/src/utils/text/builder.rs:113-120 | the piece is appended and a hashtag entity over exactly it applied; while the lengths fit in a `u16` the text becomes the old text followed by the formatted piece |
| TextBuilder.Builder.Cashtag | telers/src/utils/text/builder.rs:125-132 | the piece is appended and a cashtag entity over exactly it applied; while the lengths fit in a `u16` the text becomes the old text followed by the formatted piece |
| TextBuilder.Builder.BotCommand | telers/src/utils/text/builder.rs:137-144 | the piece is appended and a bot-command entity over exactly it applied; while the lengths fit in a `u16` the text becomes the old text followed by the formatted piece |
| TextBuilder.Builder.Url | telers/src/utils/text/builder.rs:149-156 | the piece is appended and a URL entity over exactly it applied; while the lengths fit in a `u16` the text becomes the old text followed by the formatted piece |
| TextBuilder.Builder.Email | telers/src/utils/text/builder.rs:161-168 | the piece is appended and a email entity over exactly it applied; while the lengths fit in a `u16` the text becomes the old text followed by the formatted piece |
| TextBuilder.Builder.PhoneNumber | telers/src/utils/text/builder.rs:173-180 | the piece is appended and a phone-number entity over exactly it applied; while the lengths fit in a `u16` the text becomes the old text followed by the formatted piece |
| TextBuilder.Builder.Bold | telers/src/utils/text/builder.rs:186-193 | the piece is appended and a bold entity over exactly it applied; while the lengths fit in a `u16` the text becomes the old text followed by the formatted piece |
| TextBuilder.Builder.Italic | telers/src/utils/text/builder.rs:198-205 | the piece is appended and a italic entity over exactly it applied; while the lengths fit in a `u16` the text becomes the old text followed by the formatted piece |
| TextBuilder.Builder.Underline | telers/src/utils/text/builder.rs:210-217 | the piece is appended and a underline entity over exactly it applied; while the lengths fit in a `u16` the text becomes the old text followed by the formatted piece |
| TextBuilder.Builder.Strikethrough | telers/src/utils/text/builder.rs:222-229 | the piece is appended and a strikethrough entity over exactly it applied; while the lengths fit in a `u16` the text becomes the old text followed by the formatted piece |
| TextBuilder.Builder.Spoiler | telers/src/utils/text/builder.rs:234-241 | the piece is appended and a spoiler entity over exactly it applied; while the lengths fit in a `u16` the text becomes the old text followed by the formatted piece |
| TextBuilder.Builder.Code | telers/src/utils/text/builder.rs:251-258 | the piece is appended and a code entity over exactly it applied; while the lengths fit in a `u16` the text becomes the old text followed by the formatted piece |
| TextBuilder.Builder.Monowidth | telers/src/utils/text/builder.rs:271-273 | the piece is appended and a code entity over exactly it applied; while the lengths fit in a `u16` the text becomes the old text followed by the formatted piece |
| TextBuilder.Builder.Pre | telers/src/utils/text/builder.rs:283-290 | the piece is appended and a pre entity over exactly it applied; while the lengths fit in a `u16` the text becomes the old text followed by the formatted piece |
| TextBuilder.Builder.PreLanguage | telers/src/utils/text/builder.rs:301-311 | the piece is appended and a pre-with-language entity over exactly it applied; while the lengths fit in a `u16` the text becomes the old text followed by the formatted piece |
| TextBuilder.Builder.TextLink | telers/src/utils/text/builder.rs:323-331 | the piece is appended and a text-link entity over exactly it applied; while the lengths fit in a `u16` the text becomes the old text followed by the formatted piece |
| TextBuilder.Builder.TextMention | telers/src/utils/text/builder.rs:340-346 | the piece is appended and a text-mention entity over exactly it applied; while the lengths fit in a `u16` the text becomes the old text followed by the formatted piece |
| TextBuilder.Builder.CustomEmoji | telers/src/utils/text/builder.rs:358-369 | the piece is appended and a custom-emoji entity over exactly it applied; while the lengths fit in a `u16` the text becomes the old text followed by the formatted piece |
| TextBuilder.TextsCompose | telers/src/utils/text/builder.rs:35-42 | two `texts` calls in a row append what one call with both lists appends |
| TextBuilder.QuotesOfOne | telers/src/utils/text/builder.rs:46-67 | `quotes` of a single piece appends what `quote` appends |
| TextBuilder.DefaultHtmlBold | telers/src/utils/text/builder.rs:186-193 | with the default HTML formatter a bold piece is wrapped in `<b>` tags |
| TextBuilder.DefaultHtmlItalic | telers/src/utils/text/builder.rs:198-205 | with the default HTML formatter an italic piece is wrapped in `<i>` tags |
| TextBuilder.HelloWorldExample | telers/src/utils/text/builder.rs:385-400 | the first builder example of the source produces the expected HTML text |
| TextFormatter.Splice | src/utils/text/formatter.rs:87-97 | an empty text is refused with the empty-text error, a span past the end with the out-of-bounds error; otherwise the result is the text with exactly the span replaced by its edit |
| TextFormatter.SpliceUnchanged | src/utils/text/formatter.rs:87-97 | an edit that leaves the span as it was leaves the whole text as it was |
| TextFormatter.SpliceWholeText | src/utils/text/formatter.rs:110-128 | an entity over the whole text gives the edited text |
| TextFormatter.ApplyEntityKind | src/utils/text/formatter.rs:110-128 | an empty text is refused; otherwise the formatter applies the kind at offset 0 over the text's length truncated to `u16` |
| TextFormatter.ApplyEntityKindTruncates | src/utils/text/formatter.rs:110-128 | for a text longer than `u16::MAX` only the first length-modulo-65536 characters are edited and the rest is kept |
| TextFormatter.ReferenceApplyEntity | src/utils/text/formatter.rs:148-175 | the test formatter fails exactly on an empty text or a span past the end, and otherwise wraps the span in double asterisks |
| TextFormatter.ReferenceBoldAtStart | src/utils/text/formatter.rs:260-270 | bold over the first five characters of the sample text wraps the first word |
| TextFormatter.ReferenceBoldInMiddle | src/utils/text/formatter.rs:260-276 | bold at offset 7 over five characters wraps the second word |
| TextFormatter.ReferenceErrors | src/utils/text/formatter.rs:286-304 | a span past the end is out of bounds and an empty text is refused |
| SrcUpdateKind.IntoMessage | src/types/update_kind.rs:24-34 | for any of the four message kinds, the result is the message that kind wraps |
| SrcUpdateKind.IntoCallbackQuery | src/types/update_kind.rs:36-43 | the result is the callback query the kind wraps |
| SrcUpdateKind.IntoInlineQuery | src/types/update_kind.rs:45-52 | the result is the inline query the kind wraps |
| SrcUpdateKind.IntoChosenInlineResult | src/types/update_kind.rs:54-61 | the result is the chosen inline result the kind wraps |
| SrcUpdateKind.IntoShippingQuery | src/types/update_kind.rs:63-70 | the result is the shipping query the kind wraps |
| SrcUpdateKind.IntoPreCheckoutQuery | src/types/update_kind.rs:72-79 | the result is the pre-checkout query the kind wraps |
| SrcUpdateKind.IntoPoll | src/types/update_kind.rs:81-88 | the result is the poll the kind wraps |
| SrcUpdateKind.IntoPollAnswer | src/types/update_kind.rs:90-97 | the result is the poll answer the kind wraps |
| SrcUpdateKind.IntoChatMemberUpdated | src/types/update_kind.rs:99-106 | for either member kind, the result is the member update that kind wraps |
| SrcUpdateKind.IntoChatJoinRequest | src/types/update_kind.rs:108-115 | the result is the join request the kind wraps |
| SrcUpdateKind.ConversionsRoundTrip | src/types/update_kind.rs:24-106 | wrapping a message in any of the four message kinds, a member update in either member kind, or a callback query in its kind, and converting back, gives the payload again |
| UpdateTypes.All | src/enums/update_type.rs:48-72 | `all()` has eighteen entries |
| UpdateTypes.AllDistinct | src/enums/update_type.rs:50-71 | no variant appears twice in `all()` |
| UpdateTypes.AllComplete | src/enums/update_type.rs:9-71 | every variant appears in `all()` |
| UpdateTypes.NameIsSnakeWord | src/enums/update_type.rs:8-46 | every variant's serialized name is a non-empty word of lower-case letters and underscores |
| UpdateTypes.FromStr | src/enums/update_type.rs:8-46 | a parsed name is the serialized name of the variant it yields |
| UpdateTypes.NameRoundTrip | src/enums/update_type.rs:8-46 | parsing the serialized name of every variant gives that variant back |
| UpdateTypes.NameInjective | src/enums/update_type.rs:8-46 | two variants with the same serialized name are the same variant |
| UpdateTypes.OfUpdate | src/enums/update_type.rs:99-103 | the type of an update is the type of its kind |
| UpdateTypes.OfKindPreservesVariant | src/enums/update_type.rs:74-97 | two kinds get the same type exactly when they are the same variant, whatever their payload |
| TelersUserContext.Call | telers/src/middlewares/outer/user_context.rs:26-46 | the new context is the old one with the user, chat and thread id of the update stored where present; returns the default event return |
| TelersUserContext.EntriesSpec | telers/src/middlewares/outer/user_context.rs:26-46 | each of the three keys holds the update's part exactly when it has one, is untouched otherwise, and every other key is unchanged |
| SrcUserContext.Call | src/middlewares/outer/user_context.rs:24-44 | the new context is the old one with the user, chat and thread id of the update stored where present; returns the default event return |
| SrcUserContext.EntriesSpec | src/middlewares/outer/user_context.rs:24-44 | each of the three keys holds the update's part exactly when it has one, is untouched otherwise, and every other key is unchanged |
| SrcUserContext.ChannelPostStoresChatOnly | src/middlewares/outer/user_context.rs:24-44 | an update holding only a channel post adds its chat and nothing else |
| DispatcherUserContext.Call | src/dispatcher/middlewares/outer/user_context.rs:27-43 | the new context is the old one with the user and chat of the update stored where present; returns the default event return |
| DispatcherUserContext.EntriesSpec | src/dispatcher/middlewares/outer/user_context.rs:27-43 | user and chat are written exactly when the update has them; every other key, the thread id included, is unchanged |
| Utf16.EncodeChar | src/utils/text_decorations/text.rs:2-4 | a scalar value below 0x10000 is one unit equal to itself and not a surrogate; any other is a high then a low surrogate |
| Utf16.Encode | src/utils/text_decorations/text.rs:2-4 | the encoding has at least as many units as the string has characters |
| Utf16.PairValue | src/utils/text_decorations/text.rs:7-9 | a surrogate pair stands for a scalar value in the supplementary planes |
| Utf16.Decode | src/utils/text_decorations/text.rs:7-9 | the decoded string has no more characters than there are units |
| Utf16.DecodeEncodedChar | src/utils/text_decorations/text.rs:2-9 | decoding an encoded character in front of any units gives that character in front of the decoding of the rest |
| Utf16.DecodeEncode | src/utils/text_decorations/text.rs:2-9 | `remove_surrogates` undoes `add_surrogates` for every string |
| Utf16.EncodeAppend | src/utils/text_decorations/text.rs:2-4 | encoding distributes over concatenation |
| Utf16.EncodeLength | src/utils/text_decorations/text.rs:2-4 | the encoding takes one unit per character below 0x10000 and two per other character, so between one and two units per character |

## Left out

- Network I/O: `Bot::send`, the HTTP requests and the reqwest sessions are left out. `make_request` takes the send and the parsing as parameters that may fail.
- The polling loop: the model runs it over finitely many answers to `getUpdates`. The backoff sleep, signal handling and task spawning are left out, and sending into the update channel is taken to succeed.
- Concurrency: the `Mutex`/`Arc` sharing and async/await are left out. Every operation is one sequential step, which is what the memory storage's per-key lock gives.
- The `&S` and `Arc<S>` storage impls are left out: they hand every call to the same storage, so they behave like the storage itself.
- Redis: connections, commands and connection errors are left out. The states lists and data maps live in an abstract store, and the key builder is exact.
- Serialization: bincode, serde_json, serde `Deserialize` derives and strum parsing become parameter functions that may fail. The first-key kind selection of `Update` is kept.
- Foreign engines become parameters or plain values:
  - a compiled regex is given by what it matches, and the Markdown escape is per character;
  - `pathdiff` and the path library are parameters;
  - uuid ids are given values;
  - `TakeOwnCell` is an option cell.
- `Strategy::apply` and `extract_bot_id`: src/fsm/strategy.rs and the token module are not part of this model. Both are parameters.
- The request context: src/context.rs and telers/src/context.rs are not part of this model. It is a map from string keys to tagged values, and `Any` downcasting is a tag comparison.
- User code: filters, handler services and middlewares are function values, and their own effects on the request context are not modelled.
- The derive macros: token spans, `quote!` output and the macro tests are left out, and `syn` parse errors are enum values. telers-macros/src/attrs_parsing.rs is not part of this model.
- Wire-type records and method builders (src/methods/*, telers/src/methods/*, keyboards, inline results, input media) are left out: they only set fields.
- Logging and timing middlewares, service boxing and the error wrapper types are left out.
- `Config::default` installing the user-context middleware on the `src/*` router is left out.
- src/enums/telegram_observer_name.rs is not part of this model. The observer names are the update-type names plus "update".
- telers/src/types/chat.rs is not part of this model. A chat of the newest generation is its id and type.
- telers/src/utils/text/formatter.rs and telers/src/utils/text/html_formatter.rs are not part of this model. The text `Builder` uses the formatters of src/utils/text/*.
- Those formatters' `MessageEntity` (offset, length, kind) is its own datatype, apart from the older one in src/types/message_entity.rs.
- The memory storage is generic in its key: src/fsm/storage/memory.rs uses a `StorageKey` with a thread id that base.rs does not have.
- Text lengths: the text builder and the formatters measure `text.len()` in UTF-8 bytes, but the model counts characters. The two agree on ASCII text.
- The `u16` wrap-around of entity offsets and lengths in the builder is written out explicitly.
- Integer widths: Telegram ids and counts (`i64`) are unbounded integers, and `i64` overflow is not modelled.
- Floating-point fields (locations, venues) are left out.
- Every `unimplemented!()` method of `PartSerializer` (src/serializers/reqwest.rs:371-441) is a panic and is left out: `serialize_none`, `serialize_unit`, `serialize_unit_struct`, `serialize_newtype_struct`, `serialize_newtype_variant`, `serialize_tuple`, `serialize_tuple_struct`, `serialize_tuple_variant`, `serialize_map` and `serialize_struct_variant`. `PartSerializable` excludes exactly the values that would reach them.
- Two impls in src/enums/content_type.rs are not modelled because each one's body calls itself and would recurse without end: `From<ContentType> for Box<str>` (lines 190-194), whose `content_type.into()` is that same conversion, and `PartialEq<&str> for ContentType` (lines 202-206), whose `self == other` is that same comparison. `SrcContentType.AsStr` models `ContentType::as_str`, which the `From<ContentType> for String` and `Display` impls return and which does not call itself.
- Panics become preconditions:
  - the `From<UpdateKind>` conversions on the wrong kind;
  - `Message::file_id` on an empty photo list;
  - the styled builder methods on an empty text;
  - `CommandObject::extract` on a blank text, where the byte slice `full_command[0..1]` (src/filters/command.rs:156) has no byte to take. The same slice also panics on a text whose trimmed form starts with a character wider than one byte; that case is a finding below, and the model uses the corrected extraction for it;
  - the FSM-context middleware without the user and chat entries;
  - update-type resolution with an `update` observer that has handlers;
  - the state filter's `check` on a filter built by `State::many([])`, which indexes `allowed_states[0]` of an empty list;
  - the state filter's `check` on a context holding a non-`String` value under "fsm_state", where the downcast's ``expect("State isn't `String`")`` panics (src/filters/state.rs:170-173). `CheckContextAsWritten` requires a `String` there for this reason.
- Case folding is ASCII-only: the model lower-cases 'A'..'Z' and keeps every other character, where Rust's `to_lowercase` maps all of Unicode (so "ПРИВЕТ" matches "привет" in the source but not in the model, and 'İ' becomes two characters there). The members this weakens are listed one per line below.
- TextFilter.Caseless: lower-cases text patterns on ASCII letters only; Unicode case mapping is not modelled.
- TextFilter.New: folds texts, parts, prefixes and suffixes on ASCII letters only; Unicode case mapping is not modelled.
- TextFilter.PrepareText: folds the text on ASCII letters only, so it keeps its length, which Unicode lower-casing need not; Unicode case mapping is not modelled.
- TextFilter.IgnoreCaseIgnoresInputCase: stated for ASCII case folding only; Unicode case mapping is not modelled.
- TextFilter.OneTextPattern: equality up to ASCII case only; Unicode case mapping is not modelled.
- TextFilter.OnePartIgnoringCase: stated for ASCII case folding only; Unicode case mapping is not modelled.
- TextFilter.TwoTextsExample: compares up to ASCII case only; Unicode case mapping is not modelled.
- FilterCommand.ValidateCommand: lower-cases the command on ASCII letters only; Unicode case mapping is not modelled.
- ClientTelegram.ApiUrl: stated only for a template without placeholders. `ServerApiUrl` states the URL of the default and test servers with a token without `{`.
- ClientTelegram.FileUrl: stated only for a template without placeholders. `ServerFileUrl` states it for the default and test servers.
- SrcClientTelegram.ApiUrl: stated only for a template without placeholders, because replacing inside an arbitrary template has no simpler statement than its definition.
- SrcClientTelegram.FileUrl: stated only for a template without placeholders, for the same reason.

## Findings

| source | as written | input that shows it | evidently intended | confidence | as-written member | corrected member |
|---|---|---|---|---|---|---|
| src/types/message.rs:197-201 | `sender_chat_id` returns the id of the message's own chat | a message in supergroup 1 sent on behalf of channel 2 gives 1 | the id of `sender_chat` (2) | not executed | SrcMessage.SenderChatIdAsWritten, SrcMessage.SenderChatIdDiffers | SrcMessage.SenderChatId |
| src/dispatcher/middlewares/outer/fsm_context.rs:84-86 | the chat entry is downcast as a `User`, so a stored `Chat` never gives a chat id | user 7 writing in group 5: the key gets chat id 7 | the chat's id (5) | not executed | FsmContextMiddleware.ResolveEventContextAsWritten, FsmContextMiddleware.Call, FsmContextMiddleware.CallKeyCounterexample | FsmContextMiddleware.ResolveEventContext, FsmContextMiddleware.CallCorrected |
| src/extractors/from_context.rs:242-255 | the keyless arm of `from_context_into!` implements the extractor for the source type itself: it downcasts a context value to `Self` and returns it through an identity `into()`, so no extractor for the wrapper type is generated and the conversion never happens | a context holding only the source type | find a source-type value and convert it | not executed | FromContext.KeylessAsWritten, FromContext.KeylessAsWrittenResult, FromContext.KeylessIntoCounterexample | FromContext.Keyless, FromContext.KeylessResult |
| src/dispatcher/router.rs:542-556 | the sub-router loop drops each sub-router's response, so the event comes back Unhandled | a router without handlers including one with a finishing handler | the first sub-router response that is not Unhandled | not executed | DispatcherRouter.SubRoutersAsWritten, DispatcherRouter.DroppedSubRouterExample | DispatcherRouter.PropagateEvent |
| src/filters/command.rs:153-157 | `extract` takes the prefix as the byte slice `[0..1]` of the first token, which panics when the first character is wider than one UTF-8 byte, so the command filter panics on any message whose text or caption starts with such a character | "Привет" | take the first character as the prefix ("П", command "ривет") | not executed | CommandObjects.CanExtract, CommandObjects.MultiBytePrefixCounterexample | CommandObjects.Extract, FilterCommand.Check |
| src/filters/state.rs:168-179 | the filter reads a `String` under "fsm_state"; the only FSM-context middleware modelled, the older generation's, stores an `Option<String>` under "state". The pairing crosses generations, since the `src/*` middleware is not part of this model, so the mismatch is plausible, not established | "form" stored under "state" with a filter for "form" | read the `Option<String>` under "state": both the key and the downcast type change, since with only the key changed the `String` downcast would panic on the stored `Option<String>` | not executed | StateFilter.CheckContextAsWritten, StateFilter.StateKeyCounterexample | StateFilter.CorrectedSeesMiddlewareState |
| src/types/message_entity.rs:86-93 | `extract_from` slices the text's UTF-8 bytes from twice the offset to twice the end, as if each character took two bytes | "hello" with offset 1 and length 1 gives "ll" | "e" | not executed | SrcMessageEntity.ExtractFromAsWritten, SrcMessageEntity.ByteSliceCounterexample | SrcMessageEntity.ExtractFrom |
| src/client/telegram.rs:79-88 | the simple path wrapper resolves a server path against the server base, which keeps an absolute path as it is | a file below the server's data directory | the same file below the local directory | not executed | SrcClientTelegram.ToLocalAsWritten, SrcClientTelegram.SimpleWrapperCounterexample | SrcClientTelegram.SimpleRoundTrip |
| src/serializers/reqwest.rs:465-475 | a struct without fields is written as `{{}}`; format-string escaping in a plain string literal | a struct with no fields | `{}` | not executed | ReqwestSerializer.JsonPartSerializer.EndAsWritten, ReqwestSerializer.EmptyStructAsWritten | ReqwestSerializer.StructText |
| telers/src/types/input_file.rs:517-537 | `set_stream_if_taken` replaces the stream only when it was not taken | a stream file whose stream has been taken | restore the stream exactly when it was taken | not executed | TelersInputFile.StreamFile.SetStreamIfTakenAsWritten, TelersInputFile.TakenStreamNotRestoredAsWritten | TelersInputFile.TakenStreamRestored |
| src/types/input_file.rs:234-249 | the read loop appends the whole 64 KiB buffer, not the bytes read | a 3-byte file comes back 65536 bytes long | the file's 3 bytes | not executed | SrcInputFile.ReadAsWritten, SrcInputFile.ShortFileAsWritten | SrcInputFile.ShortFile |
| telers-codegen/src/parser/api.rs:145-154 | `is_array_of` tests the prefix "Array of" but the recursion strips "Array of " with a space, so the raw type "Array of" never shrinks and the recursion never ends | the field type "Array of" | recurse only on a prefix the recursion removes | not executed (low) | CodegenApi.IdentifyFieldTypeAsWritten, CodegenApi.BareArrayOfRecursesForever | CodegenApi.IdentifyFieldType |
