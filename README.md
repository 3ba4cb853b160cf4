# jpdb client core in Dafny

A model of the core of `jpdb-rs`, a Rust client for the jpdb.io vocabulary API. It covers three pieces:

- **The error classifier** (`src/error.rs`). It turns a failed HTTP call into one variant of the client's `Error` taxonomy. It reads the status code and the service's `{error, error_message}` envelope. `Error::kind` gives each variant's tag.
- **Request marshalling** (`src/request.rs`). This is the deck reference union `AnyDeckWidget`, the `as_any` conversions, and the hand-written serialiser that writes a bare number or one of the strings `"blacklist"` and `"never-forget"`. It also covers the skip-if-`None` rule of `SetCardSentenceOptions`, and the `(url, body)` pair that `ping`, `remove_vocabulary`, `clear_deck`, `delete_deck`, `rename_deck` and `set_card_sentence` each build.
- **Client configuration** (`src/client.rs`). This is `create_url` and the fields that `new` and `new_mock` set.

Files and modules:

- `common.dfy` (`Common`): `Option` and the `u16` newtype, `0 <= x < 65536`. Every identifier is a `u16`, as the client declares.
- `json.dfy` (`Json`): the part of a JSON value that request bodies use. It also defines `Denotes`, which reads an object's member list as the key-to-value map that serde_json holds.
- `errors.dfy` (`Errors`): `Error`, `ErrorKind`, `RawError`, ureq's error as `UreqError`, `Kind`, and the classifier `FromUreq`.
- `client.dfy` (`Client`): the `Client` record, `Url` with its imperative implementation `CreateUrl`, and the constructors `New` and `NewMock`.
- `request.dfy` (`Request`): identifiers, deck references, serialisers, request builders, and `Settle`. `Settle` is what a client method returns once the network call has answered.

Decisions:

- **The `.unwrap()` in `error.rs:131`.** ureq's `Status` carries the decoded body as an `Option<RawError>`. `None` means the body was not an envelope. There the classifier returns `None`, which is the panic path, kept explicit rather than excluded by a precondition. The classifier does not map that decode failure to `DeserializeError` (src/error.rs:24). It unwraps and panics, and the model keeps that behaviour.
- **A generic `impl AnyDeckId` argument.** The two implementations form a closed sum, `DeckArg = User | Special`.
- **Object member order.** The model keeps serde's declaration order. serde_json's `Map` may reorder keys, so every property is stated through key sets and lookups (`KeySet`, `Get`, `Denotes`), never through order.
- **Endpoint paths are kept as the code writes them.** `rename_deck` posts to `deck/delete`, the path of `delete_deck`; `RenameSharesDeleteUrl` states this. `set_card_sentence` posts to `set-card-sentence`.
- **Identifier width.** Identifiers are 16-bit, as this version of the code declares them, even though the service's current identifiers may be wider.

## Model

| member | source | states |
|---|---|---|
| `Errors.Kind` | src/error.rs:59-81 | each `Error` variant gets the `ErrorKind` of the same name, in both directions, for all 19 variants |
| `Errors.FromUreq` | src/error.rs:127-163 | result is the panic path exactly when a status body did not decode; the result's kind is one of MissingKey, BadKey, TooManyRequests, BadRequest, Unhandled, Transport; a transport failure gives `Transport` with the same payload, and only it does; `Unhandled` carries the input status and envelope; a status other than 400/403/429 gives `Unhandled(code, raw)` |
| `Errors.MissingKeyRow` | src/error.rs:134-139 | over every status and envelope: `MissingKey` exactly when status 403, `error == "bad_key"` and message `"missing API key"`; it carries that message |
| `Errors.BadKeyRow` | src/error.rs:134-140 | `BadKey` exactly when status 403, `error == "bad_key"` and message `"invalid API key"`; it carries that message |
| `Errors.TooManyRequestsRow` | src/error.rs:145-151 | `TooManyRequests` exactly when status 429 and `error == "too_many_requests"`, whatever the message; it carries the message |
| `Errors.BadRequestRow` | src/error.rs:153-156 | `BadRequest` exactly when status 400 and message `"bad_request"`, whatever `error` is |
| `Errors.UnhandledRow` | src/error.rs:133-158 | `Unhandled` exactly when no row above applies, and then it is `Unhandled(code, raw)` with input unchanged |
| `Errors.ForbiddenNeedsBadKey` | src/error.rs:134-136 | on 403, an `error` other than `"bad_key"` is unhandled whatever the message |
| `Errors.TooManyRequestsIgnoresMessage` | src/error.rs:145-151 | on 429 the kind does not depend on `error_message` |
| `Errors.BadRequestIgnoresError` | src/error.rs:153-156 | on 400 the kind does not depend on `error` |
| `Client.Url` | src/client.rs:26-32 | the URL `create_url` returns: its length is the sum, the base URL is its prefix and the path its suffix |
| `Client.CreateUrl` | src/client.rs:26-32 | the buffer filled by the two pushes equals base ++ path; its length is the sum, `base` is its prefix and `path` its suffix |
| `Client.Bearer` | src/client.rs:37 | the header value is `"Bearer "` followed by exactly the token, with nothing else |
| `Client.BearerRoundTrip` | src/client.rs:37 | the token can be read back from `"Bearer " + token` |
| `Client.New` | src/client.rs:34-43 | production base URL `https://jpdb.io/api/v1/`, token stored, bearer wraps exactly that token, no `prefer` |
| `Client.NewMock` | src/client.rs:45-54 | mock base URL, token stored, bearer wraps exactly that token, `prefer` kept unchanged |
| `Client.ConstructorsConsistent` | src/client.rs:34-54 | both constructors give a bearer that wraps the client's token; two clients have the same bearer exactly when their tokens are equal |
| `Request.UserAsAny` | src/request.rs:84-88 | `UserDeckId(n)` converts to the numeric widget carrying `n` |
| `Request.SpecialAsAny` | src/request.rs:89-96 | `Blacklist` converts to `Blacklist` and `NeverForget` to `NeverForget`, in both directions |
| `Request.AsAny` | src/request.rs:23-25 | `deck_id.as_any()` on an `impl AnyDeckId` argument: the argument can be recovered from the widget |
| `Request.AsAnyBijective` | src/request.rs:84-96 | `as_any` is lossless: together with `DeckArgOf` it forms a bijection between deck arguments and widgets |
| `Request.WidgetToJson` | src/request.rs:27-38 | a number exactly for a user deck, and then that deck's id; `"blacklist"` exactly for Blacklist; `"never-forget"` exactly for NeverForget |
| `Request.WidgetRoundTrip` | src/request.rs:32-36 | the wire form of every widget reads back as the same widget |
| `Request.WidgetToJsonInjective` | src/request.rs:32-36 | distinct widgets give distinct JSON values |
| `Request.VocabularyToJson` | src/request.rs:47 | a `(Vid, Sid)` pair is a 2-element array that reads back as the same pair |
| `Request.VocabularyListToJson` | src/request.rs:47 | a slice of `(Vid, Sid)` gives one `[vid, sid]` array per entry, same length, in input order |
| `Request.VocabularyListRoundTrip` | src/request.rs:113-118 | the serialised vocabulary list reads back as exactly the input list |
| `Json.Optional` | src/request.rs:53-59 | `skip_serializing_if = "Option::is_none"`: the member list denotes the key alone when the value is set, and the empty object otherwise |
| `Request.DefaultOptions` | src/request.rs:63-74 | the default options have `vid` and `sid` 0, and their object has exactly the keys `{vid, sid}` |
| `Request.OptionsToJson` | src/request.rs:49-61 | the options serialise to an object with no repeated key, denoting the map of `vid`, `sid` and each optional field that is set |
| `Request.OptionsMapShape` | src/request.rs:49-61 | that map always has `vid` and `sid`, has each optional key exactly when its field is `Some`, has no other key, and has no `null` value |
| `Request.OptionsKeys` | src/request.rs:50-61 | the serialised object itself has distinct keys: `vid` and `sid` always, each optional one iff set, nothing else; no member's value is `null` |
| `Request.DefaultOptionsKeys` | src/request.rs:63-74 | default options with only `vid`/`sid` chosen serialise to exactly the keys `{vid, sid}` with those values |
| `Request.Ping` | src/request.rs:99-103 | URL is base ++ `"ping"` and the body is JSON `null` |
| `Request.RemoveVocabulary` | src/request.rs:108-119 | URL is base ++ `"deck/remove-vocabulary"`; body has exactly the keys `id` (the serialised `as_any()`) and `vocabulary` (the serialised list) |
| `Request.RemoveVocabularyBody` | src/request.rs:113-118 | for user and special decks alike, `id` reads back as `as_any()` of the argument; `vocabulary` is an array as long as the input that reads back as the input, in order |
| `Request.ClearDeck` | src/request.rs:124-133 | URL is base ++ `"deck/clear"`; body has exactly the key `id`, the serialised `as_any()` |
| `Request.DeleteDeck` | src/request.rs:135-144 | URL is base ++ `"deck/delete"`; body has exactly the key `id`, and that id is the deck's number |
| `Request.RenameDeck` | src/request.rs:146-155 | URL is base ++ `"deck/delete"` as written; body has exactly `id` (the deck's number) and `name` (the new name) |
| `Request.SetCardSentence` | src/request.rs:158-162 | URL is base ++ `"set-card-sentence"`; body is the options object with exactly the keys that are set |
| `Request.EveryUrlExtendsBase` | src/request.rs:98-166 | every assembled request URL has the client's base URL as a prefix |
| `Request.RenameSharesDeleteUrl` | src/request.rs:137-148 | rename and delete of the same deck go to the same URL; only the body (which has `name` for rename) tells them apart |
| `Request.Settle` | src/request.rs:104-105 | a method returns `Ok(())` exactly when the call succeeded; a ureq error gives the classifier's error, or the panic exactly when the status body did not decode |

## Left out

- The HTTP transport is not modelled: `ureq::Agent`, the 20 s read and 5 s write timeouts, `post`/`set`/`send_json`/`call`, and both `send_request` variants (src/client.rs:19-24, 56-79). They are network I/O through a foreign library. A call's outcome enters the model as the parameter of `Request.Settle`.
- The test build's `Prefer` header and its use of `call()` for a `null` body (src/client.rs:70-78) are not modelled. They belong to `send_request`.
- Decoding the response body (`into_json`) is not modelled. Its result is the `Option<RawError>` inside `UreqError.Status`.
- serde and serde_json internals are not modelled. They are replaced by the `Json` datatype and hand-written serialisers that follow serde's newtype, tuple and struct conventions.
- `Display` for `Error`, `std::error::Error::source` (src/error.rs:84-125) and `Display` for `Client` (src/client.rs:82-86) are not modelled. They only format text and wrap foreign error values. `ureq::Transport` and `std::io::Error` are opaque stand-ins that carry a description.
- `String::with_capacity(130)` in `create_url` is not modelled. Capacity has no observable effect on the result.
- Operations that are not in this `request.rs` are not modelled: `list_vocabulary`, `create_empty_deck`, `add_vocabulary`, the field selectors and their de-duplication, and the response deserialisers. Their source is not part of this model.
- `Rid` is only declared. The `Error` variants that the classifier never yields exist only as constructors.
- Map key ordering is not modelled. The model keeps declaration order in objects, and no property depends on order.

