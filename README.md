# Label trigger of the Linear integration for Zapier

This project models the hidden `label` trigger of the Linear integration for
Zapier (`src/triggers/label.ts`). The trigger fills the labels dropdown in the
zap editor. On each invocation it does the following:

- It resolves the team from the form fields `teamId` or `team_id`. Failing
  both, it asks for the current team of `issueIdToUpdate`.
- It halts with "Please select the team first before selecting the labels"
  when no team results.
- On a continuation page (`meta.page` truthy), it reads the host's cursor
  store and sends that cursor as the `after` variable.
- It stores the id of the last returned label as the next cursor. An empty
  page, or a page whose last node has an empty id, leaves the cursor store
  unchanged (src/triggers/label.ts:65-68).
- It maps every label to an `{id, name}` option. A nested label is shown as
  `<parent> → <name>`.

The Dafny model is in two files:

- `wrappers.dfy` (module `Wrappers`) holds an `Option` datatype for values that
  may be `undefined`.
- `label.dfy` (module `Label`) holds the rest:
  - the label nodes, options, form inputs and request variables as datatypes;
  - JavaScript truthiness of optional strings (present and non-empty);
  - team resolution, the label projection and the last-id computation as
    functions;
  - the host's cursor store as a class `CursorStore`. Its one real field is
    the stored cursor. A ghost log of reads and writes lets contracts say when
    the store is touched.
  - `getLabelList` itself as the method `GetLabelList`. It updates the store.
    It returns either a halt or the request variables together with the
    option list.

The label page returned by the API is an input of `GetLabelList`. So is the
team id that the sibling helper `getIssueTeamId` would answer. The method also
returns the issue id it would hand to that helper (`asked`), or `None` when it
does not consult it.

## Model

| member | source | states |
|---|---|---|
| `Label.ExplicitTeamId` | src/triggers/label.ts:21 | `teamId` wins when it is truthy. Otherwise `team_id` is used as it is, even when it is itself falsy. The result is truthy exactly when one of the two fields is. |
| `Label.ResolveTeam` | src/triggers/label.ts:21-28 | The resolved team is never empty. It exists exactly when an alias is truthy, or when an issue to update is named and the lookup answers a truthy team. Alias precedence is kept. When the lookup is consulted, its answer becomes the team. When it is not consulted, the team is the explicit one. |
| `Label.Project` | src/triggers/label.ts:71-72 | The option keeps the node's id. Its name always ends with the node's own name. Without a parent the name is exactly the node's name. With a parent it is the parent's name, then " → ", then the node's name, with no other characters. |
| `Label.Options` | src/triggers/label.ts:70-73 | The options have the page's length and order. Option i is the projection of node i. |
| `Label.OptionsAppend` | src/triggers/label.ts:70-73 | Mapping two pages one after the other gives the same options as mapping their concatenation. This is how the host joins pages. |
| `Label.LastId` | src/triggers/label.ts:65 | The next cursor is defined exactly when the page is non-empty. It is then the id of the page's last node. |
| `Label.LastIdIsLastOption` | src/triggers/label.ts:65-73 | The cursor candidate is the id of the last option shown, and undefined when no option is shown. |
| `Label.CursorStore.Get` | src/triggers/label.ts:29 | Returns the stored cursor unchanged and logs one read. |
| `Label.CursorStore.Set` | src/triggers/label.ts:67 | Stores the given cursor and logs one write of it. |
| `Label.GetLabelList` | src/triggers/label.ts:20-74 | The issue lookup is consulted, with `issueIdToUpdate`, exactly when no alias is truthy and an issue id is. The call halts with the fixed message exactly when no team resolves. A halted call leaves the store's value and access log untouched. Otherwise several things hold. The request carries the resolved team. Its `after` is the stored cursor on continuation pages and undefined otherwise. The store is read once exactly on continuation pages. The options are `Options(nodes)`. The store is written once, with the last node's id, exactly when that id exists and is non-empty, and is otherwise unchanged. |
| `Label.FetchTwoPages` | src/triggers/label.ts:29-68 | A first call followed by a continuation call with the same inputs. Both halt or neither does, and exactly when no team resolves. The first request has no `after`. The second request's `after` is the first page's last id when that id is truthy, and otherwise the cursor stored before the first call (an empty page or an empty last id writes nothing). When the first page's last option has a non-empty id, the second request continues after that option. |

## Left out

- The HTTP request is not modelled: the URL, the headers with the raw API key, the GraphQL query text and the POST method. The returned label page is an input.
- Transport and API errors, which the source lets propagate unchanged, are not modelled.
- JSON decoding and the `LabelsResponse` cast are not modelled. A response without a `nodes` list is not modelled either; the source's `labels.map` would throw on it.
- The implementation of `getIssueTeamId` lives in `src/fetchFromLinear`, which is not part of this model. Its answer is an input value, and only whether and with which issue id it is consulted is modelled.
- `async`/`await` sequencing and the persistence behind `z.cursor` are not modelled. The store is one field of a class.
- `meta.page` is modelled as an integer that is truthy when non-zero. A `NaN` page number is not modelled.
- The trigger's static metadata is not modelled: `key`, `noun`, `display` and `canPaginate`.
- `HaltedError` is modelled only as an outcome that carries its message.
