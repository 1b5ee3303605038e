# rex-utils helpers in Dafny

This project models the helpers that the rex-* command-line tools share:

- **`gitTree`** scans one directory listing for git repositories. It skips `.DS_Store`. It pushes the resolved path of every child directory that holds a `.git`. It pushes the scan root itself for an entry named `.git`.
- **`dependencyVersions`** projects an `npm ls` dependency object onto a name → version table.
- **`align`** pads console labels: two spaces in front, then spaces up to a width (12 by default).
- **`osPath`** expands a leading `~` to HOME, then resolves the result.
- **The command registry** exists twice:
  - `rex_commands()` in the mixins knows the tools `mongo`, `redis` and `git`.
  - The `commands` constant of rex-utils knows only `mongo` and `redis`.
  - Both map tool → action → shell command template. Some templates carry a `{{dbname}}` placeholder.

How the source is modelled:

- The filesystem listing becomes a sequence of `Entry` values. `Entry` records the name, whether `statSync` reports a directory, and whether `<child>/.git` exists.
- `path.resolve` and `path.sep` are parameters (`resolve: string -> string`, `sep: string`).
- HOME is an `Option<string>`.
- Each of `gitTree`, `dependencyVersions` and `align` fills its result step by step in the source. Each is a method with a loop, proved against a specification function or a direct postcondition.
- `osPath` and the two tables are expressions in the source, so they are functions and constants here.
- A lookup in a table returns an `Option`.

Files:

| file | holds |
|---|---|
| `wrappers.dfy` | `Option` |
| `command_registry.dfy` | the table type, `Lookup`, and a count of `{{dbname}}` occurrences with its lemmas |
| `rex_utils.dfy` | the `commands` constant and its properties |
| `rex_mixins.dfy` | `gitTree`, `dependencyVersions`, `align`, `osPath` and `rex_commands()` |
| `registry_agreement.dfy` | how the two tables relate |

Templates longer than about forty characters are written as concatenations of literal pieces. The pieces join to exactly the strings registered in the JavaScript. JavaScript escapes are written out: `\"` is `"` and `\'` is `'`. A backslash at the end of a line continues the string without a newline, so only the explicit `\n` sequences remain.

Behaviour of the code that a reader might expect to be otherwise:

- **No substitution:** nothing in the code substitutes `{{dbname}}` into a template or reports a missing value. Only the tables and lookups into them are modelled.
- **HOME unset:** a `~` path does not fail when HOME is unset. The code concatenates `process.env.HOME`, which yields the text `undefined`, and the model does the same (`HomeText`).
- **Order in `gitTree`:** for one entry, the code pushes the child's resolved path first and the root second. The model keeps that order.
- **Missing directory:** the code reports no error of its own for a missing or non-directory root. `readdirSync` and `statSync` throw, and those exceptions are not modelled (see below).

## Model

| member | source | states |
|---|---|---|
| CommandRegistry.Lookup | lib/rex-utils.js:79-91 | a lookup succeeds exactly when both the tool and the action are registered, and then yields the registered template |
| RexUtils.CommandsTools | lib/rex-utils.js:79-91 | `commands` has exactly the tools `mongo` and `redis` |
| RexUtils.MongoActions | lib/rex-utils.js:80-86 | a `mongo` lookup succeeds iff the action is list, count, drop, snapshot or restore; snapshot and restore are the empty string |
| RexUtils.NoGitTool | lib/rex-utils.js:79-91 | every `git` lookup in `commands` finds nothing |
| RexUtils.RedisCommandsLiteral | lib/rex-utils.js:87-90 | redis count and clear are the literal strings `redis-cli keys "*" \| wc -l` and `redis-cli flushall`, and neither contains `{` |
| RexUtils.MongoHead | lib/rex-utils.js:81-83 | helper for the layout lemmas: the literal `mongo {{dbname}}` that opens the list, count and drop templates is `mongo ` followed by the token, and `mongo ` cannot take part in a token |
| RexUtils.MongoListLayout | lib/rex-utils.js:81 | mongo list is `mongo `, the token, then pieces none of which can take part in a `{{` token |
| RexUtils.MongoCountLayout | lib/rex-utils.js:82 | mongo count is `mongo `, the token, then five such pieces |
| RexUtils.MongoDropLayout | lib/rex-utils.js:83 | mongo drop is `mongo `, the token, then five such pieces |
| RexUtils.MongoListTokenOnce | lib/rex-utils.js:81 | mongo list contains `{{dbname}}` exactly once |
| RexUtils.MongoCountTokenOnce | lib/rex-utils.js:82 | mongo count contains `{{dbname}}` exactly once |
| RexUtils.MongoDropTokenOnce | lib/rex-utils.js:83 | mongo drop contains `{{dbname}}` exactly once |
| RexMixins.RexCommandsTools | lib/rex-mixins.js:76-109 | `rex_commands()` has exactly the tools `mongo`, `redis` and `git` |
| RexMixins.GitActions | lib/rex-mixins.js:89-107 | a `git` lookup succeeds iff the action is one of branch, status_quiet, status_long, peek, porcelain, prePull; peek is empty; branch is `git rev-parse --abbrev-ref HEAD` |
| RegistryAgreement.MongoAgrees | lib/rex-mixins.js:78-84 | the `mongo` actions of `rex_commands()` equal those of `commands` |
| RegistryAgreement.RedisAgrees | lib/rex-mixins.js:85-88 | the `redis` actions of `rex_commands()` equal those of `commands` |
| RegistryAgreement.LookupAgrees | lib/rex-mixins.js:76-109 | for every tool other than `git`, both tables answer every lookup alike, hits and misses; `git` lookups fail in `commands` |
| RegistryAgreement.MongoTemplatesOpenWithToken | lib/rex-mixins.js:79-81 | in both tables, mongo list, count and drop begin with `mongo {{dbname}} ` |
| RexMixins.Contribution | lib/rex-mixins.js:146-155 | an entry adds at most two paths, and a path is added iff the entry is not `.DS_Store` and either it is a directory holding `.git` and the path is its resolved child path, or it is named `.git` and the path is the root |
| RexMixins.GitTree | lib/rex-mixins.js:140-158 | the loop returns the entries' contributions in listing order, whatever `maxDepth` is; it stats exactly the entries other than `.DS_Store`, in order |
| RexMixins.ReposOfAppend | lib/rex-mixins.js:143-156 | scanning a listing split in two gives the first part's paths followed by the second part's |
| RexMixins.ReposOfMembers | lib/rex-mixins.js:143-156 | a path is in the result iff some entry of the listing contributes it |
| RexMixins.ReposOfLength | lib/rex-mixins.js:143-156 | the result holds at most two paths per entry |
| RexMixins.ReposOfSingle | lib/rex-mixins.js:143-156 | a one-entry listing yields that entry's contribution |
| RexMixins.DsStoreIgnored | lib/rex-mixins.js:146-147 | inserting a `.DS_Store` entry anywhere, whatever its flags, leaves the result unchanged |
| RexMixins.ReposOfWithoutGitEntry | lib/rex-mixins.js:148-152 | with no `.git` entry, the result is exactly the resolved paths of the child directories holding `.git`, in listing order |
| RexMixins.ScanInsideRepository | lib/rex-mixins.js:153-155 | a listing whose only entry is `.git`, holding no `.git` of its own, yields the root, unresolved |
| RexMixins.NestedGitDirectory | lib/rex-mixins.js:148-155 | a sole `.git` directory that holds its own `.git` yields two paths: its resolved child path, then the root, unresolved |
| RexMixins.DependencyVersions | lib/rex-mixins.js:165-172 | the result has exactly the input's names, each mapped to that dependency's `version` (an empty input gives an empty table) |
| RexMixins.Align | lib/rex-mixins.js:180-186 | the result is two spaces and the text, followed only by spaces, and its length is the larger of the text length + 2 and the width, where the width is 12 when missing or 0 |
| RexMixins.TildeExpanded | lib/rex-mixins.js:130-132 | a path not starting with `~` is unchanged; one that does becomes HOME (or `undefined`) followed by the rest of the path |
| RexMixins.OnlyLeadingTildeExpands | lib/rex-mixins.js:130-134 | every character after the first survives expansion in place; a path without a leading `~` reaches `path.resolve` unchanged |
| RexMixins.TildeExpandedIdempotent | lib/rex-mixins.js:130-132 | when HOME is set, non-empty and does not start with `~`, expanding twice is expanding once |

## Left out

- `rexfile`, `displayVersion`, `showHelp` and `killWindows` in lib/rex-mixins.js are left out. So are `version`, `help` and `init` in lib/rex-utils.js, and the `cli.config.appName` assignment. They consist of console output, `require` of JSON files, `process.exit` and platform checks.
- The real `fs.readdirSync`, `fs.statSync` and `fs.existsSync` calls are replaced by the `Entry` listing. The exceptions they throw for missing paths or unreadable entries are not modelled.
- `path.resolve` and `path.sep` are uninterpreted parameters. Normalisation of `.` and `..` segments is not modelled.
- `gitTree` has no recursive descent bounded by `maxDepth`: the code accepts the parameter and never uses it, and the model does the same.
- `{{dbname}}` substitution is not modelled, because the code has no routine that performs it.
- RexMixins.Align: models only a missing width and a width of 0 as falsy. Other JavaScript falsy values (`null`, `NaN`, `""`) and non-integer widths are not represented, because `width` is an `Option<int>`.
- RexMixins.Align: measures length in characters, where JavaScript counts UTF-16 code units.
- RexMixins.Align: does not model a non-string `string` argument, which JavaScript would coerce.
- RexMixins.DependencyVersions: does not model a `meta` that is `null`, which makes the source throw.
- RexMixins.DependencyVersions: does not model an input object with a numeric `length` key. Underscore's `_.each` walks such an object as an array.
- RexMixins.DependencyVersions: does not model inherited prototype keys. Each entry is reduced to its `version` field.
- RexMixins.RexCommands: a fresh object is returned on every call in JavaScript, so callers may mutate their copy. The model returns an immutable value, so aliasing and mutation of the tables are not captured. The same holds for `commands`.
- CommandRegistry.Lookup: returns `None` for every missing key. JavaScript behaves in three ways here. Indexing an unknown tool, such as `commands.git.branch`, throws a TypeError. An unknown action under a known tool gives `undefined`. Inherited names such as `constructor` or `toString` reach `Object.prototype` members. The same simplification holds for RexUtils.NoGitTool and RegistryAgreement.LookupAgrees.
- RexMixins.DependencyVersions: the result is a map, so the insertion order of the JavaScript object is not modelled. Underscore's `_.each` visits keys in `for…in` order, and the result object keeps it.
