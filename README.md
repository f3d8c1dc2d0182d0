# Twitch channel status page: a verified model

The page fetches a channel record and a stream record for each tracked user. It renders one
status row per user into a streams container and records each row in a registry
(`rowNodes`). Three buttons then filter the rows: all, online, offline. This project models
the deterministic parts of that script in Dafny:

- `Records` (`records.dfy`): the channel and stream records, and JavaScript truthiness on
  their fields. Text fields are `Option<string>`, and `Some("")` is as falsy as `None`. The
  module also holds the shape of `fetchUser`'s result: both records, or `(null, null)` when
  either request fails.
- `RowView` (`row_view.dfy`): `renderRow`'s derivation as the pure function `BuildRow`. It
  computes the link, logo, title and status with their fallbacks. It picks exactly one badge:
  ONLINE, CLOSED or OFFLINE. It chooses the body: live details (game, viewers, optional
  preview) or an optional status line. DOM nodes are abstracted to the values they display.
- `Registry` (`registry.dfy`): the page state as the class `Page`. It holds the container's
  rows, the registry entries `{node, user, online, closed, visible}` and the set of active
  buttons. `RenderRow` appends one row and one entry. `LoadAll` empties both, then renders
  the users in list order, taking each user's result by position. `SetFilter` loops over the
  entries and sets each one's visibility in place, then marks the matching button. Each
  method is specified against a function (`EntryFor`, `Rendered`, `Filtered`, `ActiveFor`),
  and the lemmas beside those functions state the filter's properties.
- `Wrappers` (`wrappers.dfy`): the `Option` type.

An entry's `visible` field stands for its node's `style.display`. `true` is `""` and `false`
is `"none"`. `Page.Valid()` states that the container shows exactly the registry's nodes, in
order.

## Model

| member | source | states |
|---|---|---|
| Records.FetchUser | script.js:41-58 | both records are present or both are null; they are present exactly when both requests parsed, and then they are the parsed bodies |
| RowView.BadgeClassification | script.js:81-83 | ONLINE iff the stream record has a live session; CLOSED iff it does not and the channel's error is truthy; OFFLINE iff neither holds, so exactly one badge holds |
| RowView.RowDefaults | script.js:64-79 | link, logo, title and status take the channel's value when truthy; otherwise they fall back to the profile URL, the Glitch placeholder, the user name and "" respectively; the " — " suffix appears iff the status is non-empty |
| RowView.FieldsIndependent | script.js:64-77 | each field falls back independently: channels agreeing on one field give rows agreeing on that field |
| RowView.BodyShape | script.js:89-112 | details iff live, with the game defaulting to "" and viewers to 0, and a preview iff `preview.medium` is truthy; when not live, a status line iff the status is truthy, carrying that status |
| RowView.FalsyIsAbsent | script.js:64-112 | replacing every empty-string field of a channel by null leaves the row unchanged |
| RowView.EmptyChannelIsNull | script.js:64-112 | a channel with no truthy field renders exactly like a null channel |
| RowView.NullRow | script.js:62-112 | with `(null, null)`: profile link, placeholder logo, title = user, empty status, OFFLINE, no extra body |
| RowView.LiveScenario | script.js:62-106 | a live channel with display name, status, game "Chess", 42 viewers and a preview renders ONLINE with those details and the preview |
| Registry.EntryFor | script.js:119-124 | the registered entry has the user, is visible, has `online` iff live and `closed` iff the error is truthy, and its flags give the same badge its node shows |
| Registry.BothFlags | script.js:122-123 | `online` and `closed` can both hold, and the row's badge is then ONLINE |
| Registry.Shown | script.js:148-152 | "all" shows every entry; "online" shows exactly the ONLINE-flagged ones; "offline" exactly the OFFLINE ones; any other mode keeps the entry's visibility |
| Registry.Filtered | script.js:148-152 | filtering keeps the length and every entry's node, user and flags, and changes only each entry's visibility, to `Shown` |
| Registry.FilterIdempotent | script.js:148-152 | filtering twice by the same mode equals filtering once |
| Registry.FilterUnknownMode | script.js:148-152 | a mode other than all/online/offline leaves the registry unchanged |
| Registry.FilterPartition | script.js:148-152 | no entry shows under both "online" and "offline"; exactly the CLOSED ones show under neither, so they are reachable only under "all" |
| Registry.FilterMatchesBadge | script.js:148-152 | a rendered row shows under "online" iff its badge is ONLINE, under "offline" iff it is OFFLINE, and always under "all" |
| Registry.ActiveFor | script.js:154-157 | a button is active iff it selects the given mode; no button is active for any other mode |
| Registry.OneActiveButton | script.js:154-157 | for all, online and offline exactly one button is active, since the buttons select distinct modes |
| Registry.Rendered | script.js:137-142 | one entry per user; entry i belongs to `users[i]` and is built from result i, or from `(null, null)` when result i is missing |
| Registry.Page.constructor | script.js:23 | the registry starts empty; the container starts empty too (its initial HTML children are left out, see below); the initially active buttons are a parameter |
| Registry.Page.RenderRow | script.js:117-124 | appends the user's row to the container and its entry to the registry; earlier entries and the buttons are unchanged |
| Registry.Page.LoadAll | script.js:128-142 | the old rows and entries are discarded; afterwards the registry is `Rendered(users, results)` and the container shows its nodes |
| Registry.Page.SetFilter | script.js:146-158 | the registry becomes `Filtered(mode, old registry)`; the container is unchanged; the active buttons become `ActiveFor(mode)` |

## Left out

- Network requests, JSON parsing and `Promise.all` (script.js:41-59, 134-135) are I/O and asynchrony. `Records.FetchUser` takes the two responses as inputs, and `Page.LoadAll` takes the results as a sequence already in user order. `Promise.all` keeps positions, so the order in which fetches complete cannot affect the model.
- The request URLs built from the base address (script.js:42-43) exist only for the fetches that are left out.
- The `el` helper and DOM node trees, CSS classes, `innerHTML` and `appendChild` (script.js:26-38, 65-116) are browser APIs. A row is the record of the values it displays.
- The click listener that opens the link, `role`/`tabIndex`, and the button listeners (script.js:66, 160-162) are UI wiring.
- The "Loading..." placeholder and `console.error` (script.js:56, 132) are transient presentation and logging.
- The hard-coded user list (script.js:4-13) becomes `LoadAll`'s `users` parameter. The base URL (script.js:15) and the initial `loadAll()` call (script.js:165) are left out with the fetches.
- The page's HTML is not part of this model. It decides which elements carry the `.filter` class; the model takes them to be exactly the three buttons. It also decides the initially active buttons, which are a constructor parameter. It also decides the container's initial children (script.js:16). The model starts the container empty, which loses nothing: `loadAll` clears the container synchronously (script.js:129), before any filter click can run.
- Field values are modelled as optional strings, and `viewers` as an optional integer. JSON values of other types (a number as a title, `NaN` viewers) are not modelled. In the source, a `display_name`, or a non-live channel's `status`, that is a number, boolean or object reaches `appendChild` through `el` (script.js:33-35, 76, 110) and throws. `renderRow` then stops before its append and push (script.js:117-124), and `loadAll`'s loop renders no later user (script.js:138-142).
- A JSON `null` body gives a null `channel` beside a non-null `stream` (script.js:50-54). `FetchUser`'s `Response` type cannot produce such a pair. `LoadAll` accepts one and renders it as the source does. `FetchUser`'s both-or-neither shape assumes object bodies. `Rendered`'s one entry per user assumes string `display_name` and `status`.

For a mode other than all, online or offline, `setFilter` clears every `.filter` element and marks none (script.js:154-157); `Registry.ActiveFor` follows this.
