# paycheck core in Dafny

This is a model of the sequential logic inside paycheck. paycheck logs in to a document portal, lists the documents offered there, and downloads each one. Optionally it encrypts each file and uploads the ciphertexts to Box, a file-storage service.

The model covers four pieces:

- **Session client** (`svcloud.dfy`, `cookie.dfy`):
  - the login decision over the response status and its `Set-Cookie` headers;
  - extraction of the `.AspNet.ApplicationCookie` value by the regular expression `^.AspNet.ApplicationCookie=(.*?);`, modelled as written. Its two dots are wildcards, and the capture stops at the first `;`;
  - storing the cookie in the client;
  - the listing-page and download URLs and their status gates;
  - mapping the selected listing links to `Document` values.
- **Upload client** (`box.dfy`): the `attributes` record, the request's endpoint, header and parts, and the response classification. Both 201 and 409 count as success.
- **Stage pipeline** (`pipeline.dfy`):
  - the four fan-out/fan-in blocks of `main.go` (download, encrypt, upload, cleanup);
  - their per-item outcome rules and per-item paths;
  - the single aggregator loop (`success += v; fails = n - success`);
  - the flag-driven order of the stages in `main`.
- **Shared values** (`http.dfy`, `files.dfy`, `wrappers.dfy`): requests and replies as data, the file system as per-path results, and Option/Result.

The network, the file system, the encryption engine and the HTML parser are parameters:

- `Transport` gives the reply to a request;
- `FileSystem` gives each path's create/open/stat/read/remove result;
- `Env.encrypt` and `Env.parse` stand for the OpenPGP wrapper and the goquery parse-plus-selector.

Goroutines deliver their 0/1 values through a channel in no fixed order. The model takes that order as an arbitrary permutation of the values sent (`FanIn`): it picks the arrival sequence nondeterministically and proves the resulting counts for every such choice.

In three places the model follows the code where a reader might expect otherwise:

- Login checks the status before the `Set-Cookie` header. A 4xx or 5xx reply with no cookie therefore reports the status, not `NO_SET_COOKIE` (`StatusCheckedBeforeCookie`).
- `ListDocuments` returns the documents in the order the elements were selected. One synchronous `Each` feeds a FIFO channel with a single receiver, so the order is not arbitrary. Names are neither deduplicated nor checked for uniqueness.
- Until the last message arrives, the aggregator counts every item not yet heard from as a failure, since it sets `fails = len(documents) - success`. Before the first message, `fails` is 0. The final counts still satisfy `success + fails == n`.

## Model

| member | source | states |
|---|---|---|
| `CookiePattern.StopIndex` | svcloud/main.go:194 | the lazy `(.*?);` scan: the first index at or after the start holding a `;` or a newline (`.` never matches a newline), with nothing of either kind before it |
| `CookiePattern.StopIndexAt` | svcloud/main.go:194 | the stop index is determined: any index with no `;`/newline before it and a `;`/newline at it is the stop index |
| `CookiePattern.Extract` | svcloud/main.go:193-204 | a value is found only when the header starts with the 26-character fixed part (the name with its two wildcard dots, then `=`); the value has no `;` and no newline |
| `CookiePattern.ExtractIsShortestCandidate` | svcloud/main.go:194-196 | what Extract finds is a capture the regex allows (fixed part, value, `;`), and it is the shortest: every other capture extends it |
| `CookiePattern.ExtractNoneHasNoCandidate` | svcloud/main.go:196-200 | when Extract finds nothing, no capture of the regex exists (the NO_MATCH_COOKIE_PATTERN case) |
| `CookiePattern.AnchoredAtStart` | svcloud/main.go:194 | the `^` anchor: a header whose first 26 characters do not match yields nothing, whatever follows |
| `CookiePattern.ExtractCookieHeader` | svcloud/main.go:194-208 | for any value without `;` or newline, the header `.AspNet.ApplicationCookie=<value>;<anything>` yields exactly that value |
| `CookiePattern.ExampleTypicalHeader` | svcloud/main.go:17-208 | `.AspNet.ApplicationCookie=abc123; Path=/; HttpOnly` yields `abc123` |
| `CookiePattern.ExampleWildcardDots` | svcloud/main.go:17-194 | the unescaped dots accept other characters: `xAspNet-ApplicationCookie=v;` yields `v` |
| `CookiePattern.ExampleNoSemicolon` | svcloud/main.go:194-200 | with no `;` after the value there is no match |
| `CookiePattern.ExampleEmptyValue` | svcloud/main.go:194-208 | `.AspNet.ApplicationCookie=;` yields the empty value |
| `CookiePattern.ExampleNotAtStart` | svcloud/main.go:194-200 | the cookie appearing later in the header value is not found |
| `CookiePattern.ExampleNewlineInValue` | svcloud/main.go:194-200 | a newline before the first `;` prevents the match |
| `Svcloud.EvaluateLogin` | svcloud/main.go:178-213 | a transport error is returned; status >= 400 fails with the status text whatever the cookies; otherwise no Set-Cookie gives NO_SET_COOKIE; only the first Set-Cookie value is examined; success iff it matches, and then the cookie is named `.AspNet.ApplicationCookie` and carries the shortest capture; a status below 400 with a first value that does not match fails with NO_MATCH_COOKIE_PATTERN, and that error comes only when no capture exists |
| `Svcloud.LoginPayload` | svcloud/main.go:153-156 | the login body is an object with exactly the two keys `Password` and `Username`, in sorted order, holding the password and the user name |
| `Svcloud.LoginNoMatchExample` | svcloud/main.go:196-200 | a first Set-Cookie value without the closing `;` fails with the error whose text is `NO_MATCH_COOKIE_PATTERN`, for any status below 400 |
| `Svcloud.ToDocument` | svcloud/main.go:101-109 | the document's name is the element's text; its path is the href, or "" when the element has none |
| `Svcloud.Client.New` | svcloud/main.go:217-222 | baseURL kept, mainURL is baseURL + endpoint, no cookie stored |
| `Svcloud.Client.LoginRequest` | svcloud/main.go:153-176 | a POST to mainURL with the JSON credentials and no cookie, carrying exactly the five headers `Content-Type: application/json`, `User-Agent` (the Firefox string), `Origin: baseURL`, `Referer: mainURL` and `Connection: keep-alive` |
| `Svcloud.Client.Login` | svcloud/main.go:152-214 | the result is the login decision over the reply to the login request; success stores exactly the returned cookie; every failure leaves the stored cookie unchanged |
| `Svcloud.Client.PageRequest` | svcloud/main.go:42-47 | a GET of mainURL (the login URL) carrying the session cookie |
| `Svcloud.Client.FetchDocumentPage` | svcloud/main.go:38-66 | transport errors propagate; status >= 400 fails with the status text; a failed body read below 400 gives that read error; success iff status < 400 and the body was read, returning that body |
| `Svcloud.Client.ListDocuments` | svcloud/main.go:68-115 | fetch errors are returned unchanged, parse errors as parse errors; otherwise exactly one Document(text, href or "") per selected element, in element order (zero elements give an empty list and no error) |
| `Svcloud.Client.DownloadRequest` | svcloud/main.go:120-127 | a GET of baseURL, then the document path, then `&download=True`, carrying the session cookie |
| `Svcloud.Client.DownloadDocument` | svcloud/main.go:117-150 | a transport error is returned; any status other than 200 gives NOT_OK; with 200, a failed create gives that create error; success iff status is 200 and the destination could be created |
| `Svcloud.DownloadFailsBeforeCreate` | svcloud/main.go:136-143 | a non-200 download gives NOT_OK whatever the file system would do, because the destination is never touched |
| `Svcloud.StatusCheckedBeforeCookie` | svcloud/main.go:185-191 | a status >= 400 login reply fails with its status whatever Set-Cookie values it carries |
| `Svcloud.LoginExample` | svcloud/main.go:161-213 | a 302 reply (not followed) whose first Set-Cookie is the typical header logs in with cookie value `abc123` |
| `Box.Classify` | box/main.go:89-97 | no error iff the status is 201 or 409; any other status is an error carrying the status text |
| `Box.AttributesJson` | box/main.go:47-52 | the attributes JSON is an object with exactly the keys `name` and `parent`, in sorted order; `name` holds the file name and `parent` is an object whose only key `id` holds the target |
| `Box.Box.UploadRequest` | box/main.go:37-80 | a POST to `https://upload.box.com/api/2.0/files/content` with `Authorization: Bearer <token>`; the `attributes` field (name = base name, parent.id = target) comes before the `file` part, whose file name is the base name |
| `Box.Box.Upload` | box/main.go:29-98 | a stat failure is returned before any request is built; a read failure is returned before sending; once the request is sent, a transport failure gives that transport error and a response gives its classification (a status error with the status text unless 201 or 409); success iff stat and read succeed and the reply is 201 or 409 |
| `Box.New` | box/main.go:102-105 | the client keeps the token |
| `Box.ConflictIsSuccess` | box/main.go:89-91 | a 409 Conflict is success |
| `Box.BaseNameUnderDirectory` | box/main.go:30-48 | the stat name of `dir/name` is `name` when name has no `/` |
| `Box.AfterLastSlashOfSuffix` | box/main.go:48 | after a directory ending in `/`, the last path element is the file name |
| `Files.StripTrailingSlashes` | box/main.go:30 | the result is a prefix of the path and only `/` characters are dropped after it; it is non-empty when the path is, ends in `/` only when it is the lone `/`, and is the path itself when the path does not end in `/` |
| `Files.LastElement` | box/main.go:48 | the root `/` gives `/`; otherwise the result is the `/`-free suffix that starts right after the last `/` (or the whole path when it has none) |
| `Files.AfterLastSlash` | box/main.go:48 | the result is the `/`-free suffix of the path that starts right after its last `/`, and the whole path when it has no `/` |
| `Files.BaseName` | box/main.go:30-48 | the name recorded by stat never contains `/` unless it is the root `/`, which it is exactly when the non-empty path is made of `/` characters only; a non-empty path never gives an empty name; the empty path gives the empty name |
| `Files.BaseNameValue` | box/main.go:30-48 | for a non-empty path not made of `/` alone, the name is non-empty and `/`-free, and it is a slice of the path that starts at its beginning or after a `/` and is followed only by trailing `/` characters |
| `Files.LastElementAtUnique` | box/main.go:30-48 | two non-empty `/`-free slices that are both placed as the last element of a path are equal |
| `Files.LastElementUnique` | box/main.go:30-48 | any non-empty `/`-free slice placed as the last element of a path is the name BaseName gives, so the name is determined |
| `Pipeline.DownloadPath` | main.go:98 | the download path is the repository directory, a `/`, then the document's Name |
| `Pipeline.CipherPath` | main.go:54 | the ciphertext path is `/tmp/`, then Name, then `.gpg`, and Name can be read back from it |
| `Pipeline.DownloadOk` | main.go:87-106 | an item succeeds iff the download reply is a 200 response and repo/Name could be created |
| `Pipeline.EncryptOk` | main.go:135-161 | an item fails when repo/Name cannot be opened; otherwise it succeeds iff encrypting into the ciphertext path succeeds |
| `Pipeline.UploadOk` | main.go:190-214 | an item succeeds iff the ciphertext opens, stats and reads, and the upload reply is a 201 or a 409 response |
| `Pipeline.RemoveOk` | main.go:43-59 | an item succeeds iff removing `/tmp/` + Name + `.gpg` succeeds |
| `Pipeline.Sent` | main.go:46-52 | one value per item, 1 if the item succeeded and 0 otherwise |
| `Pipeline.CountOk` | main.go:36-39 | the number of successful items is at most the number of items |
| `Pipeline.Tally` | main.go:36-40 | a finished stage over n items has success + fails == n and both counters in 0..n |
| `Pipeline.SumCountsOnes` | main.go:36-37 | summing 0/1 arrivals counts the ones, whatever their order |
| `Pipeline.SentOnesAreSuccesses` | main.go:46-52 | the ones sent are exactly the successful items |
| `Pipeline.Aggregate` | main.go:35-41 | the aggregator loop over exactly n arrivals ends with success = number of ones and fails = n - success; before the first message fails is 0, after each message fails = n - success |
| `Pipeline.FanIn` | main.go:32-62 | whatever order the channel delivers the values in, the stage ends with the tally of the item outcomes |
| `Pipeline.DownloadOks` | main.go:87-106 | one outcome per document: DownloadDocument into repo + "/" + Name returned nil |
| `Pipeline.EncryptOks` | main.go:135-161 | one outcome per document: opening repo/Name and encrypting into "/tmp/" + Name + ".gpg" both succeeded |
| `Pipeline.UploadOks` | main.go:190-214 | one outcome per document: opening "/tmp/" + Name + ".gpg" and uploading it to the target folder both succeeded |
| `Pipeline.RemoveOks` | main.go:43-59 | one outcome per document: removing "/tmp/" + Name + ".gpg" succeeded |
| `Pipeline.DownloadDocuments` | main.go:68-112 | the stage's counters are the tally of the download outcomes |
| `Pipeline.EncryptDocuments` | main.go:114-167 | the stage's counters are the tally of the encrypt outcomes (one reused error variable: open, then encrypt) |
| `Pipeline.UploadItem` | main.go:190-214 | one upload goroutine's outcome (open the ciphertext, then upload it) is the upload item rule |
| `Pipeline.UploadOksSnoc` | main.go:190-214 | launching one more upload item appends its outcome to the outcomes so far |
| `Pipeline.UploadDocuments` | main.go:169-220 | the stage's counters are the tally of the upload outcomes (open, then upload) |
| `Pipeline.RemoveTmpAssets` | main.go:20-66 | a removal of "/tmp/" + Name + ".gpg" is attempted for every document, and the counters are the tally of the removal outcomes |
| `Pipeline.StagesOf` | main.go:261-291 | the stage names of the reports, in the order the stages ran |
| `Pipeline.Plan` | main.go:261-292 | download always runs first; encrypt iff -c; upload iff -u and -c; cleanup iff upload |
| `Pipeline.PlanIsOrdered` | main.go:261-292 | stages run in the order download, encrypt, upload, cleanup, each at most once; cleanup, when it runs, comes right after upload and last |
| `Pipeline.Reports` | main.go:261-292 | the reports list the stages of the plan, in order, each with the counters of the stage that ran |
| `Pipeline.ReportsBalanced` | main.go:36-40 | when every stage that ran has success + fails == n, every report does |
| `Pipeline.RunStages` | main.go:253-292 | the reports follow the plan; each stage's counters are its tally (so success + fails == number of documents); cleanup covers all documents after upload |
| `Pipeline.Run` | main.go:222-293 | a configuration, login or listing error ends the run before any stage, with that error; the session is built from the configured URLs and holds the login's cookie; the documents are exactly the listed ones; the stages follow the plan with their tallies |
| `Pipeline.AllSucceed` | main.go:36-40 | all items succeeding over n items gives {success: n, fails: 0} |
| `Pipeline.AllFail` | main.go:36-40 | all items failing gives {0, n} |
| `Pipeline.NoDocuments` | main.go:27-33 | an empty document list gives {0, 0} |
| `Pipeline.CountOkIsTrueCount` | main.go:36-37 | success equals the number of items whose action succeeded |
| `Pipeline.TallyIgnoresOrder` | main.go:35-41 | rearranging the outcomes does not change the counters |
| `Pipeline.CipherPathInjective` | main.go:54-201 | two documents share a ciphertext path only if they have the same name |
| `Pipeline.UploadedName` | main.go:201-209 | the upload names the file Name + ".gpg" when Name has no `/` (an empty Name gives `.gpg`) |

## Left out

- Goroutines, the channel and `sync.WaitGroup`. Concurrency is replaced by a sequential loop over an arbitrary arrival order. The aggregator goroutine, which is never stopped because the channel is never closed, is not modelled.
- The `net/http` transport and `http.NewRequest` errors, such as an unparsable URL. Both are folded into the transport's failure reply. The `json.Marshal` error branches are left out, because marshalling maps of strings cannot fail.
- goquery's HTML parse and the `[data-name='Name'] a` selection. They are abstracted as one `parse` function from the page body to the selected elements.
- The check `len(matchs[0]) == 0` at svcloud/main.go:202. It cannot be reached once a match exists.
- Writing the download body, `Chmod(0o600)` and `io.Copy` in DownloadDocument. Their errors are ignored by the code.
- Multipart encoding internals: the random boundary, which the Content-Type header carries as `multipart/form-data` only; the field and part writers; and the attribute JSON bytes. Writes into the in-memory buffer cannot fail, so those error branches are dropped.
- `secure/main.go`, the OpenPGP encryption. It is a parameter returning an error or nothing.
- `config/main.go`, `compress/main.go`, `helpers/message.go` and `helpers/colors.go`: configuration loading, the archive utility, and console messages. The configuration is an input (`Result<Config, string>`). The printed counters are the returned statuses.
- Flag parsing. `-c` and `-u` are two booleans.
- The file system's state across stages. Each path's results are fixed inputs, so the model does not track that a download creates the file that encryption later opens. It also does not claim that cleanup leaves no temporary files.
- Closing of files and response bodies.
- Redirect following. A `Transport` stands for the whole `client.Do`. The listing, download and upload clients are zero `http.Client` values, which follow redirects, so their reply is the final response after redirects. Only the login client stops at the first response. The redirect chain itself is not modelled.
- Go's UTF-8 strings. Strings are sequences of characters, matching regexp's per-rune `.`, and invalid UTF-8 is not modelled.
