# WechatWork client: a Dafny model

This project models the `WechatWork` class of `wechat_work/wechat_work.py`. That class is a small client for an enterprise messaging API. It exchanges the corporation id and the application secret for an access token and caches the token with an expiry time. It uploads media files. It sends text, markdown, image and file messages to a list of user ids.

The model has seven modules:

- `TokenCache`: the cache as a value (`Cache`) and one call to `get_access_token` as the function `Acquire`. `Acquire` returns the result, whether a fetch happened, and the cache afterwards.
- `Client`: the class `WechatWork`, with the two cache fields it updates in place, and its public operations as methods. Each method's contract ties its results and the new cache to `Acquire`, `Body`, `Delivered` and `UploadedMediaId`.
- `Recipients`: the `'|'` join of the user ids, with `Split` as its inverse.
- `Json`: JSON values and Python dict-literal semantics, where a later duplicate key overwrites an earlier one.
- `Message`: the body that `send` posts, and how provider answers map to return values.
- `Paths`: the base name of a file path.
- `Wrappers`: `Option` and `Result`.

Nothing in the model reads a clock or uses the network. Each token resolution takes a `TokenEnv` as input. It holds the clock reading before the cache test (line 148), the provider's parsed answer should a fetch be needed, and the clock reading used for the new expiry (line 163). The provider's answers to upload and send are inputs too. The requests a method would make are returned as values (`UploadRequest`, `SendRequest`), together with the access token they carry.

Line 148 tests `self.access_token` for truthiness, but line 160 rejects only `None`. So an empty-string token is stored, and then fetched again on every call (`TokenCache.Usable`, `TokenCache.EmptyTokenNeverReused`). An empty user list is accepted and joins to `""` (`Recipients.Join`).

A message type that equals one of the body's own keys is modelled as the dict literal behaves. For example, `msg_type == "safe"` makes the payload lose to the later `'safe': 0`, and `msg_type == "touser"` makes the payload replace the joined recipients. `Message.BodyField` states every field of the body in every such case.

## Model

| member | source | states |
|---|---|---|
| `TokenCache.Usable` | wechat_work/wechat_work.py:148 | the cache test: both fields set, the token non-empty (truthy), and the clock strictly before the expiry; its consequences are stated by `TokenCache.CacheHit`, `TokenCache.ExpiredFetches` and `TokenCache.EmptyTokenNeverReused` |
| `TokenCache.Acquire` | wechat_work/wechat_work.py:148-165 | a fetch happens exactly when the cache is not usable (token and expiry both set, token non-empty, clock strictly before expiry); a returned token is the stored one; the call fails exactly when it fetched and the answer has no token |
| `TokenCache.CacheHit` | wechat_work/wechat_work.py:148-149 | a usable cache returns its token, does not fetch and leaves both fields unchanged |
| `TokenCache.ExpiredFetches` | wechat_work/wechat_work.py:148 | the expiry test is strict: with either field absent, or the clock at or after the expiry, a fetch happens |
| `TokenCache.FetchFailureKeepsCache` | wechat_work/wechat_work.py:159-161 | an answer without a token raises and neither cache field changes, because the raise comes before the assignments |
| `TokenCache.RefreshStores` | wechat_work/wechat_work.py:159-165 | a successful fetch stores the new token, sets expiry to the later clock reading plus the lifetime minus 60 seconds, and returns the stored token |
| `TokenCache.CacheChangesOnlyOnRefresh` | wechat_work/wechat_work.py:148-165 | the cache changes only through a fetch that returned a token |
| `TokenCache.RefreshWindow` | wechat_work/wechat_work.py:148-164 | after refreshing a non-empty token with lifetime E at clock T, the next call fetches if and only if its clock reads at least T + E - 60; otherwise it returns the same token and leaves the cache unchanged |
| `TokenCache.EmptyTokenNeverReused` | wechat_work/wechat_work.py:148 | an empty token returned by the provider is stored, but the next call fetches again whatever the clock says |
| `TokenCache.FirstCallFetches` | wechat_work/wechat_work.py:17-18 | with both cache fields at their initial absent value the first call fetches |
| `TokenCache.CachedCallsAgree` | wechat_work/wechat_work.py:148-149 | two calls made while the cache is usable give the same result and leave the same cache |
| `Client.WechatWork.Unconnected` | wechat_work/wechat_work.py:17-18 | stores corpid, appid and corpsecret; both cache fields start absent |
| `Client.WechatWork.Connect` | wechat_work/wechat_work.py:20-39 | construction always fetches; it raises when the provider gives no token; otherwise the new client holds its configuration, the refreshed cache, and the returned token as its cached token |
| `Client.WechatWork.GetAccessToken` | wechat_work/wechat_work.py:133-165 | result, fetch flag and new cache fields are those of `Acquire` on the old fields; no fetch exactly when the cache was usable; a failure changes neither field; on success the returned token is the cached one |
| `Client.WechatWork.UploadFile` | wechat_work/wechat_work.py:59-73 | resolves the token first and raises if that raises; otherwise makes an upload with the token, media type "file", the local path and the remote name; returns the media id when errmsg is "ok" and "" otherwise, never raising for a provider error |
| `Client.WechatWork.Send` | wechat_work/wechat_work.py:107-131 | resolves the token first and makes no request if that raises; otherwise posts `Body(msg_type, users, appid, content, media_id)` with the token; returns true if and only if errmsg is exactly "ok" |
| `Client.WechatWork.SendText` | wechat_work/wechat_work.py:216-218 | is `Send` with message type "text", the content, and no media id |
| `Client.WechatWork.SendMarkdown` | wechat_work/wechat_work.py:233-235 | is `Send` with message type "markdown", the content, and no media id |
| `Client.MediaMessageSent` | wechat_work/wechat_work.py:180-183 | the behaviour `Client.WechatWork.SendImage` and `Client.WechatWork.SendFile` promise: upload under the base name, then send the media id the upload returned with no content; the second token resolution starts from the cache the first left; if the upload's token fetch raises, nothing is sent |
| `Client.WechatWork.SendImage` | wechat_work/wechat_work.py:180-183 | uploads under the base name of the path, then sends an "image" message with the upload's result (possibly "") as media id and no content; each step resolves the token from the cache the previous step left; an upload whose token fetch raises sends nothing |
| `Client.WechatWork.SendFile` | wechat_work/wechat_work.py:198-201 | as `SendImage`, with message type "file" |
| `Recipients.Join` | wechat_work/wechat_work.py:107 | `'sep'.join(parts)`: the ids in order with one separator between neighbours, `""` for no ids; proved against `Recipients.Split` by `Recipients.SplitJoin` and `Recipients.JoinSplit`, and measured by `Recipients.JoinLength` and `Recipients.JoinSeparatorCount` |
| `Recipients.SplitJoin` | wechat_work/wechat_work.py:107 | a non-empty list of ids without the pipe is recovered unchanged, in order, by splitting its join at the pipe |
| `Recipients.JoinSplit` | wechat_work/wechat_work.py:107 | joining the pieces of any string split at the separator gives the string back (the other half of the inverse pair) |
| `Recipients.JoinInjective` | wechat_work/wechat_work.py:107 | two non-empty id lists without the pipe that join to the same `touser` string are equal |
| `Recipients.JoinSeparatorCount` | wechat_work/wechat_work.py:107 | when no id contains the pipe, the joined string has exactly one separator fewer than there are users |
| `Recipients.JoinStartsWithFirst` | wechat_work/wechat_work.py:107 | the joined string starts with the first id; `Recipients.SplitJoin` shows that the whole order is kept |
| `Recipients.JoinLength` | wechat_work/wechat_work.py:107 | the joined length is the total length of the ids plus one per gap |
| `Recipients.TwoRecipients` | wechat_work/wechat_work.py:107 | ["ZhangSan", "LiSi"] joins to "ZhangSan", a pipe, "LiSi" |
| `Json.LookupPut` | wechat_work/wechat_work.py:109-121 | after a dict item assignment the key reads back as the new value and every other key is unchanged |
| `Json.LookupFromEntries` | wechat_work/wechat_work.py:109-121 | a dict literal keeps, for every key, the value of the last entry written with that key |
| `Json.FromEntriesKeys` | wechat_work/wechat_work.py:109-121 | a dict literal has distinct keys, exactly the keys written in it |
| `Message.BodyEntries` | wechat_work/wechat_work.py:109-121 | the entries of the body's dict literal, in the order written: touser, msgtype, agentid, the payload under the message type, then the four flags |
| `Message.Payload` | wechat_work/wechat_work.py:113-116 | the payload object with `content` and `media_id`, each `null` when unset; see `Message.PayloadFields` |
| `Message.Body` | wechat_work/wechat_work.py:109-121 | the JSON object that the body literal evaluates to; every field is given by `Message.BodyField`, and the consequences by `Message.BodyFlags`, `Message.BodyContents` and `Message.BodyKeys` |
| `Message.BodyField` | wechat_work/wechat_work.py:109-121 | every key of the body: the flags always have 0, 1, 0, 1800; the message type's key holds the payload unless it is a flag key; touser, msgtype and agentid hold the joined users, the type and the app id unless the type reuses that key; no other key is present |
| `Message.BodyFlags` | wechat_work/wechat_work.py:117-120 | safe=0, enable_id_trans=1, enable_duplicate_check=0 and duplicate_check_interval=1800, whatever the inputs |
| `Message.BodyContents` | wechat_work/wechat_work.py:109-116 | for a type that is not a fixed key, touser is the pipe-join of the users (from which the users can be read back), msgtype is the type, agentid is the app id, and the payload sits under the type |
| `Message.BodyKeys` | wechat_work/wechat_work.py:109-121 | the body has distinct keys: the seven fixed ones plus the message type |
| `Message.PayloadFields` | wechat_work/wechat_work.py:113-116 | the payload always has both content and media_id, each null when unset, and no other key |
| `Message.Delivered` | wechat_work/wechat_work.py:131 | the value `send` returns: true exactly when errmsg is "ok"; see `Message.DeliveredExamples` and `Client.WechatWork.Send` |
| `Message.DeliveredExamples` | wechat_work/wechat_work.py:131 | "ok" counts as delivered; "" and "invalid user" do not |
| `Message.UploadedMediaId` | wechat_work/wechat_work.py:71-73 | the value `upload_file` returns: the media id when errmsg is "ok", `""` otherwise; see `Message.UploadResultCases` and `Message.UploadFailureIndistinguishable` |
| `Message.UploadResultCases` | wechat_work/wechat_work.py:71-73 | the result is "" exactly when errmsg is not "ok" or the media id is empty; a non-empty result is the media id of an accepted upload |
| `Message.UploadFailureIndistinguishable` | wechat_work/wechat_work.py:71-73 | every answer whose errmsg is not "ok", whatever media id it carries, gives the same result as an accepted upload with an empty id |
| `Paths.BaseName` | wechat_work/wechat_work.py:180 | the base name contains no '/' |
| `Paths.BaseNameSuffix` | wechat_work/wechat_work.py:198 | for a path not ending in '/', the base name is a suffix of the path, either the whole path or preceded by '/' |
| `Paths.BaseNameOfPlainName` | wechat_work/wechat_work.py:180 | a path without '/' is its own base name |

## Left out

- HTTP transport (`requests.get`, `requests.post`), the endpoint URLs and the query-string plumbing: this is network I/O. The model returns each request as a value and takes each answer as an input.
- Multipart encoding with `MultipartEncoder`, and opening and reading the file: this is a foreign library plus file I/O. `UploadRequest` names the local path and the remote name only.
- JSON parsing of responses: answers are already-structured datatypes (`FetchResult`, `UploadResponse`, `SendResponse`). A missing `errmsg` or `media_id` key raises `KeyError` in the source, and the model has no such case.
- `datetime.now()` and `timedelta`: replaced by integer clock readings in seconds, given as inputs.
- The `TypeError` raised when a token answer has `access_token` but no `expires_in`: `FetchResult.expiresIn` is always present. In the source the token would be stored before that crash.
- `Paths.BaseName`: a simplified POSIX `Path.name`. It drops trailing '/' and takes the last component. It does not model "." components, Windows separators or drive letters.
- Thread safety of the shared cache: the source has no synchronisation, and concurrency is out of scope.
- The cardinality of the body (7 or 8 members, depending on key reuse) is not stated. `Message.BodyKeys` gives the distinct key set instead.
