# Verified model of the blog's translation pipeline and request guards

This project models the small pieces of logic in a Next.js blog where authors
write posts in Japanese and publish them machine-translated into seven more
languages. Each piece is written in Dafny and proved against its contract:

- **Translation** (`OpenAI`, lib/openai.ts). `TranslateBlogPost` makes one
  request to the language service through a transport oracle. It then checks
  the HTTP status, reads the JSON body, extracts the text (first the
  `output_text` field, then the first text part of the first `message` item)
  and counts the tokens used. `TranslateToAllLanguages` is the two-stage
  relay. It translates Japanese into English; if that fails, the whole call
  fails. Otherwise it translates the English text into es, pt, ko, zh, tw and
  th, keeping only the calls that succeed. It is a method with a map variable
  and a loop over the settled outcomes, proved equal to the reference mapping
  `Translations`. It also returns the calls it made, so "nothing else was
  attempted" can be stated.
- **Headings and excerpts** (`MarkdownHeading`, `PostsRoute`,
  `PublicPostsRoute`). The pattern `/^#\s+(.+)$/m` is written out as
  scanning. `IsFirstMatch` states what the regular-expression engine reports:
  the leftmost match, the longest `\s+`, then the longest `.+`. `FirstMatch`
  is proved to report exactly that. Titles and excerpts are derived from it,
  with JavaScript's `trim` and `substring`.
- **Routes** (`PostsRoute`, `PublicPostsRoute`). These are the guard order
  of the admin listing and post creation, and of the public listing. Each
  handler returns its answer together with the store calls it made.
- **Bearer token** (`ApiAuth`, lib/api-auth.ts), **admin gate**
  (`Middleware`, middleware.ts) and **upload guards** (`Blob`, lib/blob.ts).

Foreign services are parameters: the language service (`send`), the post
store, `verifyAuth`, zod's URL check (`isUrl`), and the blob store's `put`
and `del`.

Behaviour of the code that the model keeps, and that a reader might not
expect:
- `\s+` also matches line breaks. A lone `#` line therefore takes the next
  line as the title, even a line that starts with `##`
  (`TitleCrossesLineBreak`). What always holds is that no match *starts* on
  a `##` line (`NoMatchOnSubheading`).
- An excerpt can end in `...` without having been cut (`EllipsisMayBeOwnText`).
  The exact statement is in `ExcerptSpec`.
- A zero `input_tokens` is falsy, so the code falls back to `prompt_tokens`
  (`ZeroTokensFallThrough`).
- A body that is not JSON gives 500, not 400 (`CreatePost`).
- `Gate` tests the "/admin" prefix on characters, not path segments, so
  called on `/administrator` it redirects (`PrefixIsTextual`). The `matcher`
  of middleware.ts (`/admin/:path*`), which is not modelled, keeps such
  paths from reaching it.

An English failure throws a fixed message without its cause, so
`OrchestrationError.EnglishTranslationFailed` carries none.

## Model

| member | source | states |
|---|---|---|
| `OpenAI.LanguageTable` | lib/openai.ts:19-27 | seven distinct codes with distinct names; the second stage covers every language except English, once each |
| `OpenAI.RequestFor` | lib/openai.ts:39-40 | an omitted source language becomes "Japanese"; the target's table name and the content go into the request |
| `OpenAI.Find` | lib/openai.ts:108-111 | `find` returns the first accepted item, which is not `null`; a `null` item met before it is an error; none is found only when no item is accepted and none is `null` |
| `OpenAI.MessageText` | lib/openai.ts:109-112 | no message or no (or `null`) content gives ""; a content array gives the `text` of the first text part `Find` returns when it is truthy, else ""; `Find`'s error is passed on; other content is an error |
| `OpenAI.ExtractText` | lib/openai.ts:98-118 | every successful extraction is non-empty text |
| `OpenAI.ExtractTextCascade` | lib/openai.ts:98-118 | a non-empty direct text wins; otherwise the first text part of the first message; no text is `ExtractionFailed` |
| `OpenAI.ExtractDirectOutputText` | lib/openai.ts:101-105 | a string `output_text` is used as is; an array of strings is joined with "\n" |
| `OpenAI.EmptyOutputTextFallsBack` | lib/openai.ts:101-113 | `[""]` gives "" and falls back to the message parts; `["", ""]` gives "\n" |
| `OpenAI.UsageFallback` | lib/openai.ts:122-128 | for any response with a `usage` object: a non-zero number in the first field wins (a truthy non-number counts 0); when the first is falsy or missing, a number in the second, and 0 for anything else; prompt and completion use these fields; total = their sum |
| `OpenAI.NoUsageObjectCountsZero` | lib/openai.ts:122-128 | a response whose `usage` is missing, `null` or not an object counts zero tokens of each kind |
| `OpenAI.ZeroTokensFallThrough` | lib/openai.ts:123-127 | a zero first count falls through to the second; no usage object gives zeros |
| `OpenAI.TranslateBlogPost` | lib/openai.ts:61-136 | a timeout, a network failure, a non-2xx status or a non-JSON body is the matching error; a 2xx JSON body succeeds exactly when extraction does, with the extracted text and `UsageOf` the body, and fails with the extraction's error otherwise; a success is non-empty and its total is the sum of its counts |
| `OpenAI.TranslateToAllLanguages` | lib/openai.ts:148-194 | an English failure fails the call after exactly one call; otherwise the six later calls get the English text with "English" as source, and the result is `Translations` |
| `OpenAI.TranslationsKeys` | lib/openai.ts:170-191 | keys are en plus the successful languages; en maps to the English text; a failed language is absent |
| `OpenAI.TranslationsCount` | lib/openai.ts:173-191 | with K failures among the six, the result has 1 + (6 - K) entries |
| `OpenAI.TranslationsIndependent` | lib/openai.ts:173-191 | each language's entry depends only on that language's own call |
| `OpenAI.RealTranslationsNonEmpty` | lib/openai.ts:156-191 | with the real client, every entry of the result is non-empty |
| `MarkdownHeading.MatchAt` | app/api/posts/route.ts:51 | a match at p has the longest `\s+` and the longest `.+`; no match means the pattern cannot match at p |
| `MarkdownHeading.FirstMatch` | app/api/posts/route.ts:51 | the reported match is the leftmost one (`IsFirstMatch`); none is reported only when the pattern matches nowhere |
| `MarkdownHeading.TitleSpec` | app/api/posts/route.ts:51-52 | the title is the first match's group, and "Untitled" when nothing matches; it is non-empty and has no line break |
| `MarkdownHeading.NoMatchOnSubheading` | app/api/posts/route.ts:51 | no match starts on a line beginning with "##" |
| `MarkdownHeading.TitleOfHeadingLine` | app/api/posts/route.ts:51-52 | "# Hello\n\nWorld" gives the title "Hello" |
| `MarkdownHeading.TitleCrossesLineBreak` | app/api/posts/route.ts:51 | "#\nHello" gives "Hello" and "#\n## Sub" gives "## Sub" |
| `MarkdownHeading.RemoveFirstHeadingSpec` | app/api/public/posts/route.ts:60 | the text splits into what precedes the first match, the match (starting with `#` and ending in the title) and what follows; only the match is cut out, and what precedes it holds no match |
| `JsText.TrimOfPadded` | app/api/public/posts/route.ts:60 | trimming whitespace-padded text gives back exactly the unpadded text |
| `JsText.NatText` | lib/openai.ts:102 | a number in a joined array is written as decimal digits with no leading zero, denoting its value |
| `JsText.JoinEmpty` | lib/openai.ts:102 | a join with a separator is empty exactly when it has no part, or one empty part |
| `JsText.ToUpperCaseFacts` | app/api/posts/route.ts:25 | upper-casing keeps the length, leaves no lower-case ASCII letter and is idempotent |
| `PostsRoute.BuildWhereClause` | app/api/posts/route.ts:20-26 | `deleted_at` is always null; `status` is present exactly when a non-empty filter is given, and then it is upper-cased |
| `PostsRoute.ListPosts` | app/api/posts/route.ts:14-74 | the query's filter has only `deleted_at` (null) and, for a non-empty filter, `status` upper-cased; take and skip default to 10 and 0; a store failure is a 500; each listed post carries its heading title |
| `PostsRoute.ParseCreatePost` | app/api/posts/route.ts:6-9 | accepted exactly when `content_ja` is a string of 1..10000 characters and `image_url` is missing or a URL |
| `PostsRoute.ContentLengthBounds` | app/api/posts/route.ts:7-8 | lengths 1 and 10000 pass, 0 and 10001 fail; a `null` image URL is refused |
| `PostsRoute.CreatePost` | app/api/posts/route.ts:78-121 | the order is 401, then 500 for a non-JSON body, then 400 for schema issues; only then one DRAFT post is created; a store failure is a 500 |
| `PostsRoute.CreatePostGuards` | app/api/posts/route.ts:81-96 | an unauthenticated answer ignores the body and the store; every created post is a draft |
| `PublicPostsRoute.ExcerptSpec` | app/api/public/posts/route.ts:60-61 | at most 200 characters: the remainder itself; otherwise its first 200 plus "..."; never over 203 characters |
| `PublicPostsRoute.ExcerptWithoutHeading` | app/api/public/posts/route.ts:60 | with no heading, the excerpt source is the trimmed content |
| `PublicPostsRoute.EllipsisMayBeOwnText` | app/api/public/posts/route.ts:61 | "..." is its own excerpt, so a trailing "..." does not mean the text was cut |
| `PublicPostsRoute.ListPublishedPosts` | app/api/public/posts/route.ts:6-91 | token failure gives 401 and a limit over 100 gives 400, both with no query; otherwise meta echoes limit and offset, and count is the number of posts |
| `PublicPostsRoute.PublicPostFields` | app/api/public/posts/route.ts:55-69 | the title follows the heading rule or is "Untitled"; the excerpt is at most 203 characters; `published_at` falls back to `created_at` |
| `PublicPostsRoute.LangIsOnlyEchoed` | app/api/public/posts/route.ts:16-82 | `lang` changes neither the posts, the meta nor the queries |
| `ApiAuth.VerifyApiToken` | lib/api-auth.ts:6-21 | true exactly when a non-empty token is configured and the header is "Bearer " followed by that token |
| `ApiAuth.VerifyApiTokenCases` | lib/api-auth.ts:7-20 | a missing header, another scheme or no configured token gives false; otherwise true exactly when the header minus its first 7 characters equals the token |
| `ApiAuth.SchemeAndTokenAreExact` | lib/api-auth.ts:8-20 | "bearer" in lower case and an extra space are both refused |
| `ApiAuth.UnauthorizedApiResponse` | lib/api-auth.ts:26-28 | status 401; the message defaults to "Unauthorized" |
| `Middleware.Gate` | middleware.ts:3-25 | a redirect happens exactly for an "/admin" path other than the login page without the cookie, and it goes to "/admin/login" with `redirect` set to the path |
| `Middleware.GateSeesOnlyPresence` | middleware.ts:13-16 | the decision depends only on whether the cookie is present, not on its value |
| `Middleware.RedirectTargetPasses` | middleware.ts:9-20 | following the redirect always passes |
| `Middleware.PrefixIsTextual` | middleware.ts:7-11 | "/administrator" and "/admin/login/" are gated; "/blog/admin" is not |
| `Blob.UploadImage` | lib/blob.ts:4-36 | checks run in the order token, type, size; `put` is called once, and only when all three pass |
| `Blob.SizeLimitIsInclusive` | lib/blob.ts:17-21 | exactly 5 MiB is uploaded; one byte more is refused |
| `Blob.DeleteImage` | lib/blob.ts:39-50 | without a token it fails and `del` is never called; otherwise one `del`, and its failure becomes `DeleteFailed` |

## Left out

- The network and the clock are parameters. `fetch`, the 120-second abort
  timer and `response.json()` are the `Transport` value that `send` returns.
- Loading `OPENAI_API_KEY` at import time, the authorization header sent to
  the language service, and all console logging are not modelled.
- The prompt wording is not modelled. The request carries only the values
  interpolated into it (target language name, source language, content),
  plus the model name and reasoning effort.
- `Promise.allSettled` is a sequence of six independent outcomes in list
  order. No state is shared between the calls, so concurrency is not modelled.
- The store (Prisma) is a function from a query to rows and a total.
  Filtering by status, ordering by date and counting happen inside it.
  `toISOString` is taken as already applied: timestamps are text.
- `parseInt` is not modelled: `limit` and `offset` arrive as integers, with
  None for a missing or empty parameter. A non-numeric parameter (NaN in the
  source) is outside the model.
- `verifyAuth` is the boolean `authenticated`; lib/auth.ts is not part of
  this model. Zod's URL check is the parameter `isUrl`; its issue details
  are reduced to one `Issue` value per failing field.
- Strings are sequences of Unicode scalar values. The source counts UTF-16
  code units, so a character outside the Basic Multilingual Plane counts
  twice there for the 200- and 10000-character limits.
- `toUpperCase` is modelled for ASCII letters only.
- JSON numbers are integers, and `join` writes them in plain decimal. Floats
  and exponent notation are not modelled.
- `OpenAI.MessageText`: a truthy non-string `text` part (a number or an
  object) becomes its string conversion. The source returns the raw value,
  and an empty array there counts as text.
- `OpenAI.UsageOf`: a truthy non-number token field (for example `"5"`)
  counts as 0. The source would carry the raw value, and `+` would
  concatenate strings.
- The register route, the per-post and publish routes, and the UI and layout
  pages are not modelled: they are storage, crypto and rendering.
- The `matcher` configuration of middleware.ts is not modelled (it chooses
  which requests reach the gate). The gate function is total over all paths.
