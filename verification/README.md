# CC Switch Model — settings mapper and credential store

CC Switch Model is a desktop helper. It writes a `.claude/settings.json` into a chosen project folder so that
the command-line assistant talks to one of three Anthropic-compatible providers: `zai`, `minimax` or `openrouter`.
It also keeps one API key per provider in a credentials file. The key is encrypted with the platform cipher when
that cipher is available, and kept in clear otherwise.

This project models, in Dafny, the logic behind the main process's IPC handlers in `main.js`:

- the input guard `isNonEmptyString`, including JavaScript's `String.prototype.trim`;
- `providerEnv`, which maps provider, model name, key and additional configuration to `{ env }`, including the
  `Object.assign` merge;
- the validation order of `save-settings` and the single file it writes;
- `readCredentials` / `writeCredentials`, modelled as the state of the credentials file;
- the `credential-set` and `credential-get` handlers, including the self-healing path when a stored blob no
  longer decrypts.

Layout, one module per file:

- `wrappers.dfy`: `Option` and `Result`.
- `js.dfy`: the JavaScript values the handlers see. This covers `typeof`, truthiness, the
  `v && typeof v === 'object'` guard, property reads, and the index keys `Object.assign` copies from an array.
- `text.dfy`: `trim` over the ECMAScript white-space and line-terminator characters, and `isNonEmptyString`.
- `providers.dfy`: the closed provider set and the `includes(provider)` membership test.
- `config_mapper.dfy`: `providerEnv`. The pure specification is `EnvFor`. The method `ProviderEnv` keeps the
  source's `forEach` loop.
- `save_handler.dfy`: the `save-settings` validation as the function `Validate`, and the handler as a method of
  the class `Workspace`. The class holds the settings file of each project folder.
- `credentials.dfy`: the class `CredentialStore`, whose field `disk` is what the credentials file holds. Its
  methods are `writeCredentials` and both credential handlers. `readCredentials` is the module-level function
  `ReadCredentials`. Beside it sit the specification functions `AfterSet`, `AfterHeal` and `Classify`, and the
  lemmas about them.

The environment enters as parameters:

- the result of `fs.access` is `rootWritable`;
- `JSON.parse` is `parse`;
- a failing `mkdir`/`writeFile` is `writeError`, a `WriteFault` holding the message and whether the file was
  already truncated;
- `Date.now()` is `now`;
- `safeStorage.isEncryptionAvailable()` is `available`;
- the cipher is a `Cipher` value of two functions.

The cipher's round trip, `decrypt(encrypt(s)) == Some(s)` with a non-empty encryption, is the predicate `Sound`.
It is only ever a hypothesis of the lemmas that need it, never assumed.

Behaviour of the code that the model keeps:

- The guard at main.js:118 admits arrays, and `Object.assign` then adds the variables `"0"`, `"1"`, …
  (`ArrayOverride`, `ArrayConfigAccepted`).
- A credential entry holds `updatedAt` and one of `enc` or `plain`.
- A write that fails after `writeFile` has opened its file leaves that file truncated. A truncated credentials
  file no longer parses, so every provider then reads as no key (`TruncatedWriteLosesEveryKey`).
- A credentials file whose top level, or whose `providers`, is an array passes the `typeof === 'object'` guard
  of `readCredentials`. The provider names are not array indices, so `JSON.stringify` drops what
  `credential-set` assigns. `credential-set` reports success, the file comes back unchanged, and
  `credential-get` finds no key. The model keeps this behaviour as the `Detached` store
  (`ArrayProvidersLoseTheKey`).
- `Object.assign` never copies a property named `__proto__`. The write runs the `Object.prototype` setter
  instead, so that key never reaches the written env (`ObjectOverride`).

## Model

| member | source | states |
|---|---|---|
| Js.IsObjectLike | main.js:92 | the guard `v && typeof v === 'object'` holds exactly for objects and arrays, so null and every scalar are refused |
| Js.IndexKey | main.js:93 | the property name of array index n is a non-empty string of decimal digits with no leading zero; index 0 is named "0" |
| Js.DecimalValueOfIndexKey | main.js:93 | the property name of index n reads back as n, so distinct indices give distinct names |
| Js.DecimalValueOfIndexKeys | main.js:93 | every index name reads back as its index |
| Js.IndexProps | main.js:93 | the own enumerable properties of an array (those `Object.assign` copies) are exactly "0".."n-1", each holding its element, and no other name |
| Text.TrimStart | main.js:59 | the result is a suffix of the input whose dropped prefix is all white space and which does not start with white space |
| Text.TrimEnd | main.js:59 | the result is a prefix of the input whose dropped suffix is all white space and which does not end with white space |
| Text.Trim | main.js:59 | trim returns the middle of the input: everything dropped before and after it is white space, and a non-empty result has no white space at either end |
| Text.TrimIsMiddle | main.js:59 | trimming from both ends leaves a contiguous slice of the input, and everything after that slice is white space |
| Text.TrimStartAllSpace | main.js:59 | a string of white space only trims from the start to nothing |
| Text.TrimKeepsNonSpace | main.js:59 | a string holding any non-space character does not trim to nothing |
| Text.TrimEmptyIffAllSpace | main.js:59 | a string trims to empty if and only if every character is white space |
| Text.TrimIdempotent | main.js:59 | trimming twice gives the same as trimming once |
| Text.NonEmptyStringIff | main.js:58-60 | isNonEmptyString holds if and only if the value is a string with at least one non-space character, so white-space-only strings are refused |
| Providers.FromValue | main.js:104 | the includes test accepts a value exactly when it is the name string of one of the three providers, and gives that provider |
| ConfigMapper.AssignRoles | main.js:82-89 | the forEach loop leaves the env it is given with each of the five roles set to the model name |
| ConfigMapper.ProviderEnv | main.js:62-96 | the settings hold the provider's defaults and the roles, with the merged configuration written over them |
| ConfigMapper.GeneratedKeysOf | main.js:65-89 | before the merge, a known provider has the base URL, token and timeout, minimax's traffic flag or openrouter's API key, the five roles, and nothing else |
| ConfigMapper.GeneratedValuesOf | main.js:65-79 | the base URL is the provider's own, the token is the key, the timeout is the string "3000000", minimax's flag is the number 1, and openrouter's API key is "" |
| ConfigMapper.GeneratedRoles | main.js:82-89 | whatever the provider name, all five roles hold the model name before the merge |
| ConfigMapper.Defaults | main.js:65-95 | with nothing to merge, the env is exactly the provider's fixed variables and the five roles, with their values |
| ConfigMapper.UnknownProvider | main.js:65-89 | a provider name outside the three gets only the five roles |
| ConfigMapper.GeneratedCapitalised | main.js:65-89 | every generated variable name starts with a capital letter |
| ConfigMapper.ObjectOverride | main.js:92-95 | merging an object gives every property except `__proto__` the value supplied, even the token and base URL; every other generated variable keeps its value; no other key appears |
| ConfigMapper.ArrayOverride | main.js:92-95 | merging an array adds element i under "i", keeps every generated variable, and adds only the canonical index names of the elements |
| ConfigMapper.ModelOverride | main.js:82-94 | overriding ANTHROPIC_MODEL changes that role only; the other four keep the model name |
| SaveHandler.AdditionalConfig | main.js:114-123 | the additional configuration is nothing when the field is not a non-empty string; otherwise it is accepted exactly when it parses to an object or array, and what is accepted is the parsed value itself |
| SaveHandler.Validate | main.js:100-123 | folder, provider, model name, key, permission and configuration are checked in that order, and the first failure picks the error; success holds exactly when all pass, with the model name and key trimmed |
| SaveHandler.ValidatedRequestIsClean | main.js:103-125 | a validated request has a non-empty folder, a trimmed non-empty model name and key, and nothing or an object-like value to merge |
| SaveHandler.Workspace.constructor | main.js:98 | the workspace starts with the given settings files |
| SaveHandler.Workspace.SaveSettings | main.js:98-144 | every rejection leaves all files unchanged with its own message; a write failure reports its message and leaves that folder's file untouched or truncated; success writes exactly that folder's settings, and nothing else |
| SaveHandler.UnknownProviderRefused | main.js:104 | once the folder is valid, provider "foo" is refused whatever else the payload holds |
| SaveHandler.BlankApiKeyRefused | main.js:106 | a white-space-only API key is refused, before the permission check |
| SaveHandler.PermissionCheckedBeforeConfig | main.js:109-111 | without write permission the error names the folder, whatever the additional configuration |
| SaveHandler.NonObjectConfigRefused | main.js:115-122 | configuration text that fails to parse, or parses to null or a scalar, is refused |
| SaveHandler.ArrayConfigAccepted | main.js:118 | configuration that parses to an array is accepted, and its elements become the variables "0", "1", … while the roles keep the model name |
| Credentials.ReadCredentials | main.js:156-167 | a missing, unparsable or non-object file reads as `{version: 1, providers: {}}`; an object file reads as its other properties plus its `providers` object, with `{}` when `providers` is missing or not an object; the file reads as detached exactly when its top level or its `providers` is an array |
| Credentials.ReadSerialized | main.js:156-174 | reading back a file written from a plain-object store gives that same store |
| Credentials.RereadIsStable | main.js:156-174 | writing back what was read and reading it again changes nothing |
| Credentials.SetThenGetRoundTrip | main.js:176-220 | when the file reads as a plain-object store (not an array-shaped one), after a successful write storing a non-empty trimmed key, get finds exactly that key, encrypted or not, given a sound cipher |
| Credentials.SetKeepsOthers | main.js:181-193 | a set whose write succeeds leaves every other provider's entry, and every other top-level property, unchanged |
| Credentials.SetStoresOneForm | main.js:183-192 | the stored entry holds the timestamp and exactly one of `enc` (the encrypted key, when encryption is available) or `plain` (the trimmed key) |
| Credentials.HealForgetsOnlyThatEntry | main.js:210-214 | after a self-heal whose write succeeds, that provider reads as no key and every other entry is as before |
| Credentials.MissingFileHasNoKeys | main.js:156-167 | a missing, unparsable or non-object file reads as the empty store, so get finds no key for any provider |
| Credentials.EncTakesPrecedence | main.js:206-217 | a non-empty `enc` decides the result, whether or not `plain` is there |
| Credentials.EmptyFieldsMeanNoKey | main.js:206-220 | an entry whose `enc` and `plain` are absent or empty yields no key |
| Credentials.ArrayProvidersLoseTheKey | main.js:161-162 | for every file whose top level or `providers` is an array, set writes the file back unchanged, and get finds no key |
| Credentials.TruncatedWriteLosesEveryKey | main.js:158-165 | after a write fails part-way, the file reads as the empty store and get finds no key for any provider |
| Credentials.RunKeepsUntouched | main.js:176-224 | a provider that no step names keeps its entry through any history of sets and self-heals with every write succeeding |
| Credentials.RunKeepsStore | main.js:156-224 | a file that reads as an object with an object `providers` still does after any history of sets and self-heals with every write succeeding |
| Credentials.DetachedNeverChanges | main.js:156-193 | a file whose top level or `providers` is an array is never changed by any history of sets and self-heals with every write succeeding |
| Credentials.LastSetWins | main.js:176-220 | when the file reads as a plain-object store (not an array-shaped one), after a set of a non-empty key for a provider followed by any steps for other providers, with every write succeeding, get returns that key, given a sound cipher |
| Credentials.BuildEntry | main.js:183-191 | the entry built field by field is the timestamp with exactly one of the two forms |
| Credentials.CredentialStore.constructor | main.js:152-154 | the store starts over the given file contents and cipher |
| Credentials.CredentialStore.WriteCredentials | main.js:169-174 | the whole file is replaced by the serialised store; a failed write is reported and leaves the file untouched or truncated |
| Credentials.CredentialStore.Set | main.js:176-198 | an invalid provider, then an empty or white-space key, is refused with its error before the file is touched; a failed write reports its message and leaves the file untouched or truncated; success stores the trimmed key for that provider |
| Credentials.CredentialStore.Get | main.js:200-224 | an invalid provider is refused; a readable entry yields its key, or "" when there is none, with the file unchanged; an undecryptable entry is deleted and "" returned, or the write failure reported with the file untouched or truncated |
| Credentials.SetThenGet | main.js:176-224 | when the file reads as a plain-object store (not an array-shaped one), running set and then get on the class, with both writes succeeding, returns the trimmed key |

## Left out

- The window, the app lifecycle and the F12 handler (main.js:6-47) are left out. They are UI shell with no domain logic.
- The `select-root` dialog and `open-path` (main.js:49-56, 146-150) are left out. They are thin wrappers over the operating system.
- The preload bridge is not part of this model. It only forwards IPC calls.
- The file system is not modelled:
  - `fs.access` is the boolean `rootWritable`.
  - `mkdir`/`writeFile` failures are `writeError`. A failed write leaves the file either untouched or
    truncated, and a truncated file is modelled as one that does not parse. Which prefix was written is
    not modelled.
  - A read failure of the credentials file is the `Disk` case `NoFile`.
  - Settings files are keyed by the project root string, so the normalisation `path.join` performs is not modelled.
- `safeStorage` and base64 are not modelled. They are a `Cipher` of two functions, and the round trip is the `Sound` hypothesis.
- `JSON.parse` and `JSON.stringify` text are not modelled:
  - Parsing is the parameter `parse`.
  - A file that does not parse is `Garbage`.
  - Stored documents are JSON values.
  - Property order and pretty-printing are not modelled.
- JavaScript numbers are modelled as integers. The additional configuration and an existing credentials file
  may hold any JSON number; the handlers only pass such values through. Non-integer numbers are outside the
  model. The timestamp `Date.now()` is a parameter.
- The throws the model covers:
  - `readFile` or `JSON.parse` inside `readCredentials`, absorbed as the code absorbs them (`NoFile`, `Garbage`);
  - the rejection of `fs.access` (`rootWritable`);
  - the throw of `safeStorage.decryptString` (`decrypt` returning `None`);
  - a failed `mkdir`/`writeFile` (`writeError`).
- `safeStorage.encryptString` (main.js:185) can throw, and `credential-set` then returns `{ok:false, error}`
  without writing. It is left out: the model's `encrypt` is total.
- Concurrent handler invocations, and the last-writer-wins race on the credentials file, are not modelled. They are asynchronous interleavings.
- SaveHandler.Workspace.SaveSettings: only the settings files this handler writes are state. The `.claude` directory that `mkdir` creates is not tracked.
