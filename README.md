# Seed message-driven update examples, modelled in Dafny

This project models the update logic of two example applications written with the Seed
web framework (Rust, compiled to WebAssembly). In both, one mutable model is changed only
by an `update` function that matches on a closed message enum.

- **Drop zone** (`examples/drop`), module `DropZone` in `drop_zone.dfy`. The model has
  `drop_zone_active` and `drop_zone_content`. `update` handles `DragEnter`, `DragOver`,
  `DragLeave` and `Drop(FileList)`. On `Drop` the content is rebuilt from the file list:
  the present entries at `0..length()` are kept and each becomes one label holding the
  file's name. `Model` is a class whose `Update` method assigns its fields in place. It
  is proved against the pure transition `Step`. The rebuild is the loop `CollectNames`,
  proved against `PresentNames`.
- **Server interaction** (`examples/server_interaction`), module `ServerInteraction` in
  `server_interaction.dfy`. The model holds one `Branch`, which starts as the
  "Loading..." pair. `update` handles `RepositoryInfoFetched`, `SendMessage` and
  `MessageSent`, and records effects in an `Orders` object. `skip()` suppresses the
  re-render and `perform_cmd` queues a task. `Model`, `Orders` and `AfterMount` change
  state in place. `Model.Update` is proved against the pure `Reduce`; `Orders.Skip`,
  `Orders.PerformCmd` and `AfterMount` state their new state directly. The two tasks
  `fetch_repository_info` and `send_message` are pure functions over an abstract
  `Network`. That record holds a transport (request to response or `FetchError`) and a
  decoder per response type. They share the two-stage early-return fold `Chain`.
- `wrappers.dfy` holds Rust's `Option` and `Result` (module `Wrappers`).

`Run` in each module applies `update` to a whole sequence of messages. The lemmas about
message sequences are stated over `Run`.

## Model

| member | source | states |
|---|---|---|
| DropZone.Model.AfterMount | examples/drop/src/lib.rs:14-19 | the zone starts inactive and shows only the placeholder label "Drop files here" |
| DropZone.Model.Update | examples/drop/src/lib.rs:31-47 | the new fields are `Step` of the old ones; DragEnter sets active, DragLeave clears it, neither touches the content; DragOver changes nothing; Drop clears active and sets the content to the present names of the dropped list |
| DropZone.CollectNames | examples/drop/src/lib.rs:39-44 | the loop over indices `0..length()` returns exactly `PresentNames` of the list |
| DropZone.PresentNamesConcat | examples/drop/src/lib.rs:41-44 | the names of a concatenation are the names of the first part followed by those of the second, so index order is kept |
| DropZone.PresentNamesLength | examples/drop/src/lib.rs:41-43 | the number of labels equals the number of present entries (length minus the absent ones) |
| DropZone.PresentNamesMembership | examples/drop/src/lib.rs:41-43 | a name is shown if and only if some entry of the list is a file with that name |
| DropZone.PresentNamesAllPresent | examples/drop/src/lib.rs:41-44 | when every entry is present, label k is the name of file k |
| DropZone.RunDragOverIdle | examples/drop/src/lib.rs:34 | any number of DragOver messages leaves the whole state unchanged |
| DropZone.RunActive | examples/drop/src/lib.rs:33-37 | after any message sequence the zone is active iff the last DragEnter/DragLeave/Drop was DragEnter, or there was none and it started active |
| DropZone.RunContentLastDrop | examples/drop/src/lib.rs:36-44 | after any sequence, the content is the present names of the last Drop's list, whatever it was before: a drop replaces and never appends |
| DropZone.RunContentNoDrop | examples/drop/src/lib.rs:32-35 | a sequence without Drop keeps the starting content |
| DropZone.DropForgetsPrevious | examples/drop/src/lib.rs:36-44 | the state after Drop does not depend on the state before it and is inactive |
| ServerInteraction.Chain | examples/server_interaction/src/lib.rs:108-116 | a transport error is returned unchanged and decoding is not consulted; otherwise the result is the decoder's outcome on the response; the result is Ok iff both stages succeed |
| ServerInteraction.FetchRepositoryInfoTask | examples/server_interaction/src/lib.rs:106-117 | always yields one RepositoryInfoFetched; transport error e gives Err(e); otherwise the decode outcome; Ok iff both stages succeed |
| ServerInteraction.SendMessageTask | examples/server_interaction/src/lib.rs:119-141 | posts the fixed Mark Watney payload; always yields one MessageSent; transport error e gives Err(e); otherwise the decode outcome; Ok iff both stages succeed |
| ServerInteraction.Perform | examples/server_interaction/src/lib.rs:106-141 | running a command yields exactly one message, RepositoryInfoFetched for the fetch command and MessageSent for the send command |
| ServerInteraction.Orders.Skip | examples/server_interaction/src/lib.rs:84 | sets the skip flag and keeps the queued commands |
| ServerInteraction.Orders.PerformCmd | examples/server_interaction/src/lib.rs:88 | appends the command after those already queued and keeps the skip flag |
| ServerInteraction.Model.Default | examples/server_interaction/src/lib.rs:43-54 | the branch name and the commit sha are both "Loading..." |
| ServerInteraction.AfterMount | examples/server_interaction/src/lib.rs:60-63 | returns a default model and queues exactly one command, the repository fetch |
| ServerInteraction.Model.Update | examples/server_interaction/src/lib.rs:75-104 | the new branch, skip flag, commands and console entry are those of `Reduce`; a fetched branch replaces the model without skip or command; a failed fetch keeps the model, skips and logs one error; SendMessage keeps the model, skips and appends one send command; MessageSent keeps the model, skips and queues nothing |
| ServerInteraction.RunBranchLatest | examples/server_interaction/src/lib.rs:77 | after any sequence, the branch is that of the last successful RepositoryInfoFetched |
| ServerInteraction.RunBranchKept | examples/server_interaction/src/lib.rs:79-102 | a sequence without a successful fetch keeps the starting branch |
| ServerInteraction.RunPerformed | examples/server_interaction/src/lib.rs:87-88 | the commands performed over any sequence are send commands, one per SendMessage message |
| ServerInteraction.RunSendMessages | examples/server_interaction/src/lib.rs:87-88 | n consecutive SendMessage messages perform n send commands, log nothing and keep the branch |
| ServerInteraction.ReorderKeepsPerformed | examples/server_interaction/src/lib.rs:87-102 | any two orders of the same messages perform the same commands |
| ServerInteraction.ReorderWithoutFetchedBranch | examples/server_interaction/src/lib.rs:79-102 | any reordering of a run without a successful fetch (for example two submits and their two completions) keeps the starting branch and performs the same commands |
| ServerInteraction.MessageSentOrderIrrelevant | examples/server_interaction/src/lib.rs:91-102 | any reordering of a run made only of send completions, successful or not, keeps the branch and performs no command |
| ServerInteraction.CompletionPerformsNothing | examples/server_interaction/src/lib.rs:75-141 | the message a task yields performs no further command, and it skips rendering unless it carries a fetched branch |
| ServerInteraction.DecodeSkippedOnTransportError | examples/server_interaction/src/lib.rs:108-111 | with a transport error, the result is that error whatever the decoder |

## Left out

- Views, markup and styles (`view`, `div!`, `style!`, `md!`, `raw!`, the CSS values): pure rendering through library macros.
- The `#[wasm_bindgen(start)]` entry points and `App::builder(...).build_and_start()`: framework start-up.
- DOM event plumbing (`raw_ev` handlers, `stop_and_prevent!`, `IntoDragEvent`, `set_drop_effect("copy")`): foreign browser calls. The model starts from the message each handler returns.
- The placeholder and file labels are modelled as strings, not as `div!` nodes, because wrapping them is rendering.
- HTTP and JSON (`fetch`, `Request::new`, `.method`, `.json`, serde): foreign library calls. Transport outcomes and decoding are parameters (`Network`), and `FetchError` and responses are opaque. As a result, no serialise-then-decode round trip of the contact payload is stated.
- The `.expect("Serialization failed")` panic in `send_message`: it is a library failure, and the payload is only modelled as a typed value.
- The URL constants `REPOSITORY_URL` and `CONTACT_URL`: a request keeps only its method and body.
- Asynchronous scheduling and the interleaving of task completions. A task is modelled as the single message it yields (`Perform`), which is fed back through `update`. Reordering a run never changes the commands performed (`ReorderKeepsPerformed`), and a run without a successful fetch, such as a double submit with both completions, keeps the branch in any order (`ReorderWithoutFetchedBranch`). Fetch completions do depend on order: the last successful one wins (`RunBranchLatest`).
- The text of the `log!`/`error!` console lines: each becomes a `LogEntry` value naming the event and carrying the error or response.
- The render trigger: `update` only records whether rendering is skipped.
