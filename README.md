# React Native template: data layer model

A Dafny model of the data layer of a React Native app template. It covers five parts:

- the hierarchical cache-key taxonomy;
- the query client's retry and freshness configuration;
- the persisted application-state store;
- the REST client's request/response handling;
- the data hooks, which pick query keys and, after a mutation, invalidate or remove cache entries and report errors.

| file | module | models |
|---|---|---|
| `query_keys.dfy` | `QueryKeys` | `lib/queryKeys.ts`: keys as token sequences. Every constructor call is listed as a `KeyName`. `Classify` parses a key back to its call. `Covers` states the hierarchy without looking at tokens. |
| `query_client.dfy` | `QueryClient` | `lib/queryClient.ts`: the default options and `retryDelay` |
| `store.dfy` | `Store` | `lib/store.ts`: the `AppStore` class (five fields, six actions), the `Step` function that specifies the actions, `Partialize`, and the four selectors |
| `api.dfy` | `Api` | `lib/api.ts`: base URL, URL, fetch options, the verb helpers, the endpoint table, and `Request` |
| `query_cache.dfy` | `QueryCache` | the query cache the hooks call: `map<Key, Status>`, with prefix-based `invalidateQueries` / `removeQueries` |
| `use_api.dfy` | `UseApi` | `hooks/useApi.ts`: query keys, `enabled`, fetch functions, and the mutation success/error handlers |
| `js_values.dfy`, `wrappers.dfy` | `JsValues`, `Wrappers` | JSON values, JavaScript truthiness and `String(v)`, decimal digits; `Option` and `Result` |

The network call, `response.json()` and schema validation are not modelled. Their outcomes are inputs to `Api.Request`:
- a `Transport` (a response, or a rejection with its message);
- a `JsonParse` (a value, or the parse error's message);
- a schema, given as a function to a `SchemaVerdict`.

The base URL's environment value is a parameter of `Api.BaseUrl`.

The cache's `invalidateQueries` and `removeQueries` belong to the external query library. The model defines them as follows: an entry is selected when its key extends the given key, token by token. Invalidation marks selected entries `Stale`. Removal drops them. Nothing more is claimed about the library.

## Model

| member | source | states |
|---|---|---|
| `QueryKeys.UsersAll` | lib/queryKeys.ts:7 | the users root key has one token |
| `QueryKeys.UsersProfile` | lib/queryKeys.ts:8 | the profile key has two tokens and strictly extends `users.all` |
| `QueryKeys.UsersById` | lib/queryKeys.ts:9 | `byId(id)` has two tokens, strictly extends `users.all`, and ends with `id` |
| `QueryKeys.PostsAll` | lib/queryKeys.ts:14 | the posts root key has one token |
| `QueryKeys.PostsLists` | lib/queryKeys.ts:15 | `lists()` has two tokens and strictly extends `posts.all` |
| `QueryKeys.PostsList` | lib/queryKeys.ts:16-17 | `list(f)` has three tokens, strictly extends both `lists()` and `posts.all`, and ends with the filter object |
| `QueryKeys.PostsDetails` | lib/queryKeys.ts:18 | `details()` has two tokens and strictly extends `posts.all` |
| `QueryKeys.PostsDetail` | lib/queryKeys.ts:19 | `detail(id)` has three tokens, strictly extends both `details()` and `posts.all`, and ends with `id` |
| `QueryKeys.CommentsAll` | lib/queryKeys.ts:24 | the comments root key has one token |
| `QueryKeys.CommentsByPost` | lib/queryKeys.ts:25-26 | `byPost(id)` has three tokens, strictly extends `comments.all`, and ends with `id` |
| `QueryKeys.SettingsAll` | lib/queryKeys.ts:31 | the settings root key has one token |
| `QueryKeys.SettingsTheme` | lib/queryKeys.ts:32 | two tokens, strictly extends `settings.all` |
| `QueryKeys.SettingsNotifications` | lib/queryKeys.ts:33 | two tokens, strictly extends `settings.all` |
| `QueryKeys.KeyShape` | lib/queryKeys.ts:7-33 | key lengths are fixed per constructor (1, 2 or 3), and every key starts with its namespace |
| `QueryKeys.ClassifySound` | lib/queryKeys.ts:7-33 | any key that `Classify` recognises is rebuilt exactly by the constructor call it names |
| `QueryKeys.ClassifyKeyOf` | lib/queryKeys.ts:7-33 | every constructor call is recovered from its key, except `users.byId('profile')`, which reads as `users.profile()` |
| `QueryKeys.ProfileByIdCollision` | lib/queryKeys.ts:8-9 | `users.byId('profile')` and `users.profile()` build the same key |
| `QueryKeys.KeyOfInjective` | lib/queryKeys.ts:7-33 | distinct constructor calls build distinct keys; the only exception is the profile/byId('profile') pair |
| `QueryKeys.PostsDetailAndListInjective` | lib/queryKeys.ts:16-19 | `detail` is injective in `id` and `list` is injective in `filters` |
| `QueryKeys.ListAndDetailUnrelated` | lib/queryKeys.ts:15-19 | a list key and a detail key never extend each other; `lists()` covers no detail key and `details()` covers no list key |
| `QueryKeys.PrefixIffCovers` | lib/queryKeys.ts:7-33 | one key is a prefix of another exactly when the designed hierarchy (`Covers`) puts the second under the first (both directions) |
| `QueryKeys.NamespacesDisjoint` | lib/queryKeys.ts:7-33 | keys of different namespaces never extend one another |
| `QueryKeys.PostsAllCoversExactlyPosts` | lib/queryKeys.ts:14-19 | a key extends `posts.all` if and only if it is a posts key |
| `QueryClient.Pow2` | lib/queryClient.ts:10 | `2 ** n` is at least 1 |
| `QueryClient.RetryDelay` | lib/queryClient.ts:10 | `min(1000 * 2^n, 30000)`: between 1000 and 30000, at most the uncapped value, and equal to either the cap or the uncapped value |
| `QueryClient.RetryDelayMonotone` | lib/queryClient.ts:10 | the delay never decreases from one attempt to a later one |
| `QueryClient.RetryDelayCapped` | lib/queryClient.ts:10 | from attempt index 5 on, the delay is 30000 |
| `QueryClient.RetryDelayDoubles` | lib/queryClient.ts:10 | for indices 0 to 3, the next delay is exactly twice the current one |
| `QueryClient.RetryDelayTable` | lib/queryClient.ts:10 | the delays are 1000, 2000, 4000, 8000, 16000, 30000 |
| `QueryClient.ConfigurationFacts` | lib/queryClient.ts:8-26 | queries retry 3 times; mutations retry once with a 1000 ms delay; stale time 300000 is less than gc time 600000; refetch is off on window focus and on for reconnect and mount |
| `Store.Step` | lib/store.ts:35-55 | an action changes only the one field its patch names |
| `Store.TogglesAreInvolutions` | lib/store.ts:35-42 | the toggles negate their flag; applying one twice restores the state |
| `Store.StepIsNoOpIff` | lib/store.ts:35-55 | an action leaves the state unchanged exactly when its field already holds the value it writes |
| `Store.SettersStoreArgument` | lib/store.ts:46-55 | `setFirstLaunch`, `setLoading` and `setError` store exactly their argument; `clearError` sets null and is idempotent |
| `Store.Partialize` | lib/store.ts:61-65 | the persisted record copies `isDarkMode`, `notificationsEnabled` and `isFirstLaunch` from the state, and has no other field |
| `Store.PartializeKernel` | lib/store.ts:61-65 | two states persist the same projection exactly when they agree on `isDarkMode`, `notificationsEnabled` and `isFirstLaunch`; `isLoading` and `error` are not persisted |
| `Store.ProjectionChanges` | lib/store.ts:35-65 | `setLoading`, `setError` and `clearError` leave the persisted projection unchanged; the toggles always change it |
| `Store.Select` | lib/store.ts:71-94 | a selector returns the values of exactly its declared fields |
| `Store.SelectorActionsStayInSlice` | lib/store.ts:71-94 | each action a selector hands out writes only that selector's own field |
| `Store.SelectorsCoverage` | lib/store.ts:71-94 | no selector exposes `isFirstLaunch` or `setFirstLaunch`; the four selections are disjoint |
| `Store.AppStore.constructor` | lib/store.ts:34-55 | the store starts dark mode off, notifications on, first launch true, not loading, no error |
| `Store.AppStore.ToggleTheme` | lib/store.ts:35 | the new state is `Step(old, toggleTheme)` |
| `Store.AppStore.ToggleNotifications` | lib/store.ts:39-42 | the new state is `Step(old, toggleNotifications)` |
| `Store.AppStore.SetFirstLaunch` | lib/store.ts:46 | the new state is `Step(old, setFirstLaunch(v))` |
| `Store.AppStore.SetLoading` | lib/store.ts:50 | the new state is `Step(old, setLoading(b))` |
| `Store.AppStore.SetError` | lib/store.ts:54 | the new state is `Step(old, setError(e))` |
| `Store.AppStore.ClearError` | lib/store.ts:55 | the new state is `Step(old, clearError)` |
| `Api.BaseUrl` | lib/api.ts:4-5 | the configured value is used unless it is absent or empty; otherwise `https://api.example.com` |
| `Api.RequestUrl` | lib/api.ts:31 | the URL is the base address followed directly by the endpoint |
| `Api.FetchOptionsAsWritten` | lib/api.ts:34-40 | if the caller passes headers, they replace the merged headers wholesale; otherwise the headers are exactly the JSON content type |
| `Api.CallerHeadersDropContentType` | lib/api.ts:34-40 | an `Authorization` header from the caller makes the code as written send no `Content-Type` |
| `Api.FetchOptions` | lib/api.ts:34-40 | intended merge: `Content-Type` is always present and is `application/json` unless the caller sets it; every caller header is kept with the caller's value; no other header appears |
| `Api.AsWrittenAgreesWithoutHeaders` | lib/api.ts:34-40 | without caller headers, the as-written and intended merges agree |
| `Api.CallOptions` | lib/api.ts:64-100 | get, post, put and delete map one-to-one onto GET, POST, PUT and DELETE; only post and put carry a body (the value passed); none passes headers |
| `Api.EveryCallSendsJsonContentType` | lib/api.ts:34-100 | every client call sends exactly `Content-Type: application/json` |
| `Api.PostPath` | lib/api.ts:117-120 | a post path is `/posts/` followed by the id, unencoded |
| `Api.CallOf` | lib/api.ts:107-122 | getProfile, getAll and getById are the only GETs; create is the only POST; the two updates are the PUTs; delete is the only DELETE; only the profile functions target `/users/profile`; each write carries the data it is given |
| `Api.PostPathInjective` | lib/api.ts:117-120 | distinct post ids give distinct `/posts/<id>` paths |
| `Api.EndpointTable` | lib/api.ts:107-122 | getById, update and delete target `/posts/<id>`; both profile calls target `/users/profile`; getAll and create target `/posts`; reads use GET |
| `Api.StatusLine` | lib/api.ts:45 | the message is `HTTP `, the status in decimal, `: `, then the status text |
| `Api.ErrorData` | lib/api.ts:43 | an error body that fails to parse is read as `{}`; a parsed one is used as is |
| `Api.StatusLineInjective` | lib/api.ts:44-46 | the synthesised `HTTP <status>: <statusText>` message determines both the status and the status text |
| `Api.HttpErrorMessage` | lib/api.ts:42-47 | a truthy `message` in an object error body becomes the message; otherwise the synthesised status line is used, also for an unparseable body (read as `{}`) and for non-object bodies; a `null` body raises the TypeError of reading `.message` |
| `Api.HttpErrorMessageCases` | lib/api.ts:42-47 | a non-empty server message is used verbatim; an unparseable body, `{}` and an empty message all give the same status-line message |
| `Api.Request` | lib/api.ts:26-62 | sends base+endpoint with the options merged as the code writes them (`FetchOptionsAsWritten`). A rejection fails with its message. A non-ok response fails with `HttpErrorMessage`. On an ok response, a body parse error passes through, and with no schema the parsed body is returned unchanged. A schema's output is returned; a schema failure becomes `Validation error: <detail>` |
| `Api.Call` | lib/api.ts:64-100 | a verb helper's request goes to base+endpoint with its method and body and the JSON content type only. Every outcome is as in `Request`: a rejection, a non-ok response, a body parse error, the parsed body with no schema, and a schema's output or validation error |
| `QueryCache.Invalidated` | hooks/useApi.ts:83-84 | invalidation keeps every key; selected entries become stale and the others keep their status |
| `QueryCache.Removed` | hooks/useApi.ts:101 | removal keeps exactly the unselected entries, with their status |
| `QueryCache.InvalidateIdempotentAndCommutative` | hooks/useApi.ts:83-84 | invalidating twice equals invalidating once, and the order of two invalidations does not matter |
| `QueryCache.OperationsFollowHierarchy` | hooks/useApi.ts:99-103 | for taxonomy keys, invalidating or removing the key of `p` affects exactly the entries that `p` covers |
| `QueryCache.InvalidateAllOfPosts` | lib/queryKeys.ts:14-19 | invalidating `posts.all` marks every posts entry stale and leaves every other resource's entries as they were |
| `QueryCache.Cache.InvalidateQueries` | hooks/useApi.ts:25 | the cache becomes `Invalidated(old, prefix)` |
| `QueryCache.Cache.RemoveQueries` | hooks/useApi.ts:101 | the cache becomes `Removed(old, prefix)` |
| `UseApi.QueryKey` | hooks/useApi.ts:7-54 | the profile hook reads `users.profile()`; `usePosts` reads exactly `posts.list` of its filters, or of `{}` when none are given; `usePost(id)` reads `posts.detail(id)` |
| `UseApi.QueryFn` | hooks/useApi.ts:12-51 | every query calls a GET function: the profile hook `getProfile`, `usePosts` `getAll`, `usePost(id)` `getById(id)` |
| `UseApi.Enabled` | hooks/useApi.ts:52 | a query is disabled exactly when it is `usePost` with an empty id |
| `UseApi.UsePostsIgnoresFilters` | hooks/useApi.ts:40-41 | every `usePosts` fetches all posts whatever its filters; two `usePosts` share a key exactly when their effective filters are equal; no filters is the same as `{}` |
| `UseApi.RunQueryFn` | hooks/useApi.ts:7-54 | a query's fetch is a GET with no body and only the JSON content type, to its API function's path (`/posts` for every `usePosts`). A rejection, a non-ok response (`HttpErrorMessage`) or a body parse error fails with that message; an ok response yields the parsed body. It takes no store, so it cannot write the error slot |
| `UseApi.MutationFn` | hooks/useApi.ts:22-98 | no mutation calls a GET function; each hook calls its own API function with its own arguments |
| `UseApi.OnSuccessOps` | hooks/useApi.ts:23-102 | the profile and create handlers make exactly one cache call and the update and delete handlers two; each ends by invalidating `users.profile()` (profile hook) or `posts.lists()` (post hooks); update first invalidates `posts.detail(id)`; delete first removes it; only delete removes anything |
| `UseApi.UpdatePostFollowsDependency` | hooks/useApi.ts:81-85 | `useUpdatePost(id)` marks `detail(id)` and every list entry stale and leaves all other taxonomy entries unchanged |
| `UseApi.DeletePostFollowsDependency` | hooks/useApi.ts:99-103 | `useDeletePost(id)` evicts `detail(id)`, marks every list entry stale, and keeps every other entry, including other ids' details |
| `UseApi.OnSuccessFollowsDependency` | hooks/useApi.ts:23-103 | each success handler's effect on every cached taxonomy key is exactly what `Dependency` declares. `useUpdateUserProfile` marks the profile stale. `useCreatePost` marks every list stale and leaves details alone. Update and delete behave as in the two rows above |
| `UseApi.OnSuccess` | hooks/useApi.ts:23-103 | the cache becomes the result of the handler's invalidate/remove calls, in source order |
| `UseApi.ErrorMessage` | hooks/useApi.ts:27-106 | an `Error`'s own message is written; anything else is replaced by the hook's fixed, non-empty fallback |
| `UseApi.FallbackMessage` | hooks/useApi.ts:29-105 | each hook has its own fixed fallback, whatever its arguments: `Failed to update user profile`, `Failed to create post`, `Failed to update post`, `Failed to delete post`; each starts with `Failed to ` |
| `UseApi.FallbacksIdentifyHook` | hooks/useApi.ts:27-106 | two mutations get the same fallback exactly when they come from the same hook |
| `UseApi.OnError` | hooks/useApi.ts:27-106 | the error handler sets the store's error slot to the message; nothing else in the store changes |
| `UseApi.Mutate` | hooks/useApi.ts:17-108 | a mutation sends its API function's request: endpoint, method, body and the JSON content type. A rejection, a non-ok response or a body parse error fails with the client's message; an ok, parsed response succeeds with the body. On success, the cache gets the handler's calls and the store is unchanged. On failure, the cache is unchanged and the error slot receives the failure's message |

## Left out

- Fetching, JSON parsing and schema internals are not modelled. Their outcomes are inputs, and the schema's error text is passed in as a string.
- `JSON.stringify` is not modelled. A request body is held as the `Json` value that would be serialised, so an `undefined` body is not represented.
- JSON numbers are modelled as integers. Fractions, `NaN` and `-0` are not represented, nor is their effect on truthiness and `String(v)`.
- JSON numbers are unbounded: integers beyond ±2^53 are not rounded as `JSON.parse` rounds them, and numbers from 1e21 up are not printed in exponent form (`1e+21`) as `String` prints them.
- `String(v)` of an object with an own `toString` field is not modelled. Whatever JSON value that field holds, it is not callable, so `String(v)` throws a TypeError. An error body such as `{"message": {"toString": 1}}` therefore makes `new Error(...)` throw, and the TypeError propagates. The model instead prints every object as `[object Object]` and yields that as the message.
- Headers are plain string maps. `Headers` objects and header arrays, which spread differently, are not modelled.
- `Api.NullBodyMessage`: the TypeError text for a `null` error body depends on the JavaScript engine. The model fixes the Hermes wording.
- Post ids are inserted into paths without URL encoding, as in the source. Paths are compared as strings, not routed.
- Query-library internals are not modelled: deduplication of in-flight reads, the retry scheduler and its timers, stale-while-revalidate, garbage collection, and refetch on reconnect, mount or focus. Only the configuration numbers are modelled. `UseApi.Enabled` gives the flag, but not the library's decision not to run a disabled query.
- The library's partial matching of object tokens inside query filters is not modelled: tokens match by equality. Every filter key the hooks pass consists of strings only, and there the two agree.
- Deep equality of filter objects is map equality, so key order does not matter. Fields whose value is `undefined` are not represented.
- Mutation retry (`retry: 1`) is not modelled. `UseApi.Mutate` takes the settled outcome after any retry.
- zustand `persist` and AsyncStorage are not modelled: write coalescing, serialisation of writes, rehydration and fallback on corrupt storage. Only the `Partialize` projection is modelled.
- `setTimeout`, `Alert`, the event loop, the screens (`app/`) and the button component are outside the data layer. So are the test setup and its mocks.
- The query hooks obtain `setError` and never use it. The model states this by giving the query functions no store.

## Findings

| source | as written | input that shows it | evidently intended | confidence | as-written member | corrected member |
|---|---|---|---|---|---|---|
| lib/api.ts:34-40 | `...options` is spread after `headers`, so caller headers replace the merged object and `Content-Type: application/json` is lost | options with headers `{Authorization: 'Bearer t'}` | caller headers merged over the JSON content type | not executed; latent, because no caller in the repository passes headers, so on every call the app makes the as-written merge that `Api.Request` sends equals the corrected one (`Api.EveryCallSendsJsonContentType`) | `Api.FetchOptionsAsWritten`, `Api.CallerHeadersDropContentType` | `Api.FetchOptions` |
