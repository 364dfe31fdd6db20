# Portfolio server: configuration loader and logger transports

This project models the two pieces of sequential logic in the Express server
of the Portfolio repository and proves properties of them in Dafny.

- **Environment loader** (`get` in `server/src/config/envConfig.ts`). Six
  environment values go in: `PORT`, `CLIENT`, `DB_SERVER`, `DB_NAME`,
  `DB_AUTH_USER` and `DB_AUTH_PASS`. The result is either one complete
  `EnvConfig` record or exactly one of four errors. The checks run in a fixed
  order and the first failing check decides the error. `PORT` is taken as the
  number `Number()` already produced (`EnvConfig.Num`). The other values are
  `Option<string>`. "Present" means JavaScript truthiness: set and not empty.
  `CLIENT` must also match the pattern `^https?:\/\/[^\s/$.?#].[^\s]*$`. That
  pattern is written out as the predicate `UrlPattern.MatchesUrl`, and
  `UrlPattern.Test` is a scanner proved equal to it.
- **Server logger** (`server/src/utils/logger.ts`). The Server logger's winston
  transports are abstracted to a sequence of `Console | File | Mongo` tags.
  `init` and the four mongoose connection events (`connected`, `reconnected`,
  `disconnected`, `error`) act on that sequence. `Logger.Run` folds the
  events over it. `get(name)` is a lookup in a map from `Service` to loggers
  that falls back to the `Server` entry.

Files: `wrappers.dfy` (Option, Result), `url_pattern.dfy` (the CLIENT pattern),
`env_config.dfy` (the loader), `logger.dfy` (transports and registry).

The error message asks for a valid positive number, and the code only rejects
`NaN` and values `<= 0`. So a fractional port such as `1.5` and `Infinity` are
both accepted. The model follows
the code (`EnvConfig.PortAcceptsNonIntegers`).

## Model

| member | source | states |
|---|---|---|
| `UrlPattern.Test` | server/src/config/envConfig.ts:39 | The scan returns true exactly when the string has a lower-case `http://` or `https://` scheme, then a first host character that is neither whitespace nor one of `/ $ . ? #`, then any non-line-terminator, then only non-whitespace up to the end |
| `UrlPattern.MatchShape` | server/src/config/envConfig.ts:39 | Every accepted string starts with lower-case `http` and is at least the scheme plus two characters long |
| `UrlPattern.AcceptedExamples` | server/src/config/envConfig.ts:39 | `http://localhost:3000` and `https://app.example.com` are accepted |
| `UrlPattern.AcceptedSpaceExample` | server/src/config/envConfig.ts:39 | `http://a b` is accepted, because `.` lets a space through as the second host character |
| `UrlPattern.RejectedExamples` | server/src/config/envConfig.ts:39 | `http://a` is too short and is rejected. So are `HTTP://…` (the match is case-sensitive), `ftp://…`, a host starting with `.`, and the empty string |
| `UrlPattern.RejectedWhitespaceExamples` | server/src/config/envConfig.ts:39 | A line break as the second host character is rejected, and so is whitespace after it |
| `EnvConfig.Get` | server/src/config/envConfig.ts:22-56 | Success happens exactly when all four checks pass, and the record then holds every input value unchanged. A failure reports a check that fails, and every check ranked before it passes |
| `EnvConfig.MessagesIdentifyCheck` | server/src/config/envConfig.ts:34-52 | The four thrown messages are pairwise distinct, so the message names the check that failed |
| `EnvConfig.PortFailsFirst` | server/src/config/envConfig.ts:34-37 | A `NaN` or non-positive port gives the PORT error, whatever the other inputs are |
| `EnvConfig.ClientFails` | server/src/config/envConfig.ts:39-42 | With a valid port, an unset, empty or non-matching CLIENT gives the CLIENT error |
| `EnvConfig.DbConfigFails` | server/src/config/envConfig.ts:44-47 | With port and client valid, an unset or empty DB_SERVER or DB_NAME gives the database-configuration error |
| `EnvConfig.CredentialsFail` | server/src/config/envConfig.ts:49-52 | With every earlier check passing, an unset or empty DB_AUTH_USER or DB_AUTH_PASS gives the credentials error |
| `EnvConfig.FirstFailureWins` | server/src/config/envConfig.ts:34-52 | Any failing check forces a failure whose error ranks no later than it. The reported error is that check's error exactly when every earlier check passes |
| `EnvConfig.SuccessIsValid` | server/src/config/envConfig.ts:34-56 | A successful result is a full record: the port is neither NaN nor at most zero, the client matches the pattern, and all four database strings are non-empty. The record also holds exactly the values that were read |
| `EnvConfig.RoundTrip` | server/src/config/envConfig.ts:26-55 | A valid record placed in the environment is read back unchanged, with no defaults or rewriting |
| `EnvConfig.PortAcceptsNonIntegers` | server/src/config/envConfig.ts:34 | The port check accepts `0.5` and `Infinity` and rejects `0`, `-Infinity` and `NaN` |
| `Logger.AddMongo` | server/src/utils/logger.ts:33-41 | Adding the MongoDB transport appends exactly one `Mongo`, keeps the earlier transports as a prefix, and raises the MongoDB count by one |
| `Logger.WithoutMongo` | server/src/utils/logger.ts:50-52 | The filter leaves no MongoDB transport and keeps the count of every other kind |
| `Logger.WithoutMongoListsKept` | server/src/utils/logger.ts:50-52 | The filtered list has one element for each non-MongoDB index, in ascending index order, so relative order is preserved |
| `Logger.OnReconnected` | server/src/utils/logger.ts:47-54 | After `reconnected` there is exactly one MongoDB transport and it is the last one. The non-MongoDB transports are those of the input, in the same order |
| `Logger.ReconnectIdempotent` | server/src/utils/logger.ts:50-53 | Applying `reconnected` twice gives the same sequence as applying it once |
| `Logger.Step` | server/src/utils/logger.ts:44-70 | No event changes the non-MongoDB transports. `connected` appends one MongoDB transport without deduplicating. `reconnected` leaves exactly one, and it is the last transport. `disconnected` and `error` leave the list unchanged |
| `Logger.Init` | server/src/utils/logger.ts:8-78 | `init` yields `[Console, File]`, or `[Console, File, Mongo]` when the connection is already open |
| `Logger.RunKeepsShape` | server/src/utils/logger.ts:44-75 | After `init` and any history of events, the console and file transports come first and everything after them is a MongoDB transport |
| `Logger.RunKeepsOthers` | server/src/utils/logger.ts:44-70 | Any history of events leaves the non-MongoDB transports unchanged and in order |
| `Logger.RunMongoCount` | server/src/utils/logger.ts:44-70 | The MongoDB count after any history equals a counter where `connected` adds one, `reconnected` resets to one, and the other events leave it unchanged |
| `Logger.ConnectThenReconnect` | server/src/utils/logger.ts:44-54 | `connected` followed by `reconnected` leaves exactly one MongoDB transport |
| `Logger.ConnectedDuplicates` | server/src/utils/logger.ts:33-75 | If the connection was already open at `init`, a later `connected` event leaves two MongoDB transports |
| `Logger.DisconnectKeepsSink` | server/src/utils/logger.ts:57-70 | `disconnected` and `error` do not remove an attached MongoDB transport |
| `Logger.Get` | server/src/utils/logger.ts:80-88 | A registered name returns its own logger and leaves the registry unchanged. Any other name returns the Server logger. If Server is missing too, the returned logger is the newly created one and it is recorded under Server. Existing entries are never changed, and the result is always the entry for the name or for Server |
| `Logger.GetIdempotent` | server/src/utils/logger.ts:80-88 | Repeating a lookup returns the same logger and leaves the registry as the first lookup left it |

## Left out

- `Number()` conversion of `PORT` (envConfig.ts:26): float parsing. The model starts from the converted value (`NaN`, `±Infinity` or a finite real). `-0` is folded into `Finite(0.0)`, and both fail `<= 0` alike.
- UrlPattern.MatchesUrl: reads one Dafny `char` per JavaScript UTF-16 code unit. A string with characters outside the Basic Multilingual Plane, which JavaScript sees as surrogate pairs, is not modelled exactly.
- `dotenv.config()` and reading `process.env` in `init` (envConfig.ts:15-20): environment I/O.
- Every log call, winston format, level and sink option, including the error logged when `get` falls back. These are side effects of a foreign library.
- Logger.Get: winston's on-demand creation of a missing logger is a parameter (`created`), not the container's real construction.
- Logger.OnReconnected: assumes that assigning the filtered list to `serverLogger.transports` (logger.ts:50) replaces the logger's transports. In winston 3 that property is a getter over the logger's piped streams. If the assignment throws, as in strict-mode code, logger.ts:53 is not reached and the list stays unchanged. If it is silently ignored, logger.ts:53 still appends a fresh MongoDB transport and the old one stays, so `reconnected` acts like `connected`. Winston's own code is not part of this model.
- Logger.Init: assumes no Server logger is registered yet. `winston.loggers.add` (logger.ts:19) returns an existing logger unchanged, without the console and file transports. Such a logger exists if `winston.loggers.get(Service.Server)` ran first, as in the `Get` fallback or in `get` of envConfig.ts:23.
- Calling logger `init` twice: winston keeps the existing logger and registers the handlers a second time. The model covers one `init`.
- MongoDB transport construction and the `instanceof` test: both become the `Mongo` tag.
- The `Service` enumeration (`server/src/data/enums.ts`) is not part of this model. `Service` is `Server` plus any other named service.
- `server/src/config/databaseConfig.ts`: network I/O and logging-only handlers. Its only pure step is the `${dbServer}/${dbName}` concatenation.
- `server/src/config/corsConfig.ts`: passes an options record built from its `client` argument to the `cors` library, and that library's matching is not visible.
- `server/src/server.ts`: Express bootstrap and listen. It hard-codes its port and origin and does not use these modules.
