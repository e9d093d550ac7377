# fritzctl command dispatcher, modelled in Dafny

This project models the command dispatcher of the fritzctl FRITZ!Box client,
in `fritz/fritzapi.go`. The dispatcher turns a list of device names into
requests against the home-automation interface of the box. It covers:

- the three request URLs (`getWithAinAndParam`, `getWithAin`, `get`);
- `ListDevices`, which fetches and decodes the device list;
- `getNameToAinTable`, which maps each device name to its AIN (the device's
  identifier with its spaces removed);
- `buildBacklog`, which looks every requested name up and queues one work item
  per device, or fails with a "No device found" error that lists the known
  names;
- `doConcurrently`, which runs the backlog and folds the per-device outcomes
  through `genericSuccessHandler`, `genericErrorHandler`, `truncateToOne` and
  `genericResult` into one error;
- the four public commands `SwitchOn`, `SwitchOff`, `Toggle` and `Temperature`,
  with the set-point sent as round(2 × celsius).

Files:

- `wrappers.dfy`: `Option` and `Result`.
- `text.dfy`: the string operations the dispatcher uses: `strings.Join`,
  `strings.Replace` of spaces, `%d` formatting. It also has reference
  functions (`Split`, `Cut`, `ParseDecimal`) that read a URL or a number back.
- `fritz.dfy`: the model of `fritzapi.go`.

Loops in the source are methods with loop invariants, each proved against a
function: `NameToAinTable` against `Table`, `BuildBacklog` against
`BacklogOutcome`, `TruncateToOne` and `GenericResult` against `Aggregate`, and
`ScatterGather` against `Gather`.

Two operations have a result whose order the source does not fix:
`stringutils.StringKeys` and `scatterGather`. Both are methods that pick keys
with `:|`. Their contracts promise only that every key occurs exactly once
(`Enumerates`).

The HTTP exchange is the function parameter `fetch`. The XML decoding of the
device list is the parameter `decode`. `doConcurrently` and `Dispatch` also
return `executed`, the devices whose work ran, in the order it ran. This is how
the model states that a failed lookup runs nothing.

## Model

| member | source | states |
|---|---|---|
| Fritz.UrlWithAinAndParam | fritz/fritzapi.go:35-46 | The URL is the endpoint, then `?`, then `ain`, `switchcmd`, `param` and `sid` appended field by field in that order. When no value holds '&' and the configuration holds no '?', parsing the URL gives back exactly those four fields in that order. |
| Fritz.UrlWithAin | fritz/fritzapi.go:48-58 | The same for the three fields `ain`, `switchcmd` and `sid`, in that order. |
| Fritz.UrlFor | fritz/fritzapi.go:60-69 | The same for the two fields `switchcmd` and `sid`, in that order. |
| Fritz.WithQueryIsJoin | fritz/fritzapi.go:36 | A URL built field by field is the base, then `?`, then the `key=value` texts joined by '&'. |
| Fritz.QueryParses | fritz/fritzapi.go:36-44 | For a configuration without '?' and fields without '&' or '=' in the names, the URL parses back to the endpoint and the same fields in the same order. |
| Fritz.ListDevices | fritz/fritzapi.go:72-81 | It requests the `getdevicelistinfos` URL. A transport error is returned unchanged. Otherwise the result is whatever decoding the body gives, including a decode error. |
| Fritz.RoundHalfAwayFromZero | fritz/fritzapi.go:130-131 | The result is an integer within one half of the input. A tie goes to the integer farther from zero. |
| Fritz.CommandUrl | fritz/fritzapi.go:101-134 | Temperature requests getWithAinAndParam's fields with `switchcmd` `sethkrtsoll` and `param` the decimal form of round(2 × celsius). SwitchOn, SwitchOff and Toggle request getWithAin's fields with `setswitchon`, `setswitchoff` and `setswitchtoggle`. |
| Fritz.WorkFactory | fritz/fritzapi.go:84-127 | The work item made for an AIN fetches that command's URL for that AIN, and nothing else. |
| Fritz.CommandUrlFields | fritz/fritzapi.go:84-134 | Every command URL parses to the endpoint, `ain` (the device's AIN), the command's `switchcmd` and, last, `sid`. The URL has four fields exactly when the command is Temperature. Its `param` then reads back as round(2 × celsius). |
| Fritz.TemperatureExamples | fritz/fritzapi.go:129-134 | 21.3 and 21.25 degrees are both sent as `43`. |
| Text.DecimalRoundTrip | fritz/fritzapi.go:132 | `%d` formatting of an integer reads back as the same integer. |
| Text.RemoveSpaces | fritz/fritzapi.go:201 | The result has no space. It keeps every other character and is shorter by the number of spaces in the input. |
| Text.RemoveSpacesConcat | fritz/fritzapi.go:201 | Removing spaces works piece by piece, so the other characters keep their order. |
| Text.RemoveSpacesWithout | fritz/fritzapi.go:201 | A string without spaces is unchanged. |
| Fritz.NameToAinTable | fritz/fritzapi.go:193-204 | An error from ListDevices is returned unchanged. Otherwise the result is `Table` of the listed devices: the loop leaves exactly the table that storing each device in turn gives. |
| Fritz.TableKeys | fritz/fritzapi.go:199-202 | The table's keys are exactly the device names. |
| Fritz.TableHasNoSpaces | fritz/fritzapi.go:201 | No AIN in the table contains a space. |
| Fritz.TableLastWins | fritz/fritzapi.go:200-202 | When two devices share a name, the last one decides the AIN. |
| Fritz.AinExample | fritz/fritzapi.go:201 | The AIN `1 2` becomes `12`. |
| Fritz.LampAndPlugTable | fritz/fritzapi.go:193-204 | For devices Lamp (`1 2`) and Plug (`34`), the table is Lamp ↦ `12`, Plug ↦ `34`. |
| Fritz.LampAndPlugLookups | fritz/fritzapi.go:182-189 | In that table, Lamp and Plug both resolve. In [Lamp, Fan], the first name that does not resolve is the second one. |
| Fritz.FirstUnresolved | fritz/fritzapi.go:182-187 | The index of the first name that is missing from the table or has an empty AIN: every earlier name resolves and that one does not. If every name resolves, it is the length of the list. |
| Fritz.StringKeys | fritz/fritzapi.go:185 | The keys of the table, each exactly once, in no fixed order. |
| Fritz.NotFoundErrorMentions | fritz/fritzapi.go:184-187 | The not-found error contains the missing name and every known name in double quotes. |
| Fritz.BacklogStep | fritz/fritzapi.go:182-189 | One loop round for a name that resolves keeps the loop state. The state is: all names so far resolve, each has a target with the work for its AIN, and there are no other targets. |
| Fritz.BacklogStopsAt | fritz/fritzapi.go:184-187 | Failing at the first name that does not resolve, with the keys in some order, is the promised outcome. |
| Fritz.BacklogCompletes | fritz/fritzapi.go:182-190 | After all names, the loop state is the promised successful outcome. |
| Fritz.BuildBacklog | fritz/fritzapi.go:176-191 | An error from the table is returned unchanged. If some requested name does not resolve, the result is the not-found error for the first such name. Otherwise the targets are exactly the requested names, each mapped to the work for its own AIN. |
| Fritz.BacklogSucceedsIffAllResolve | fritz/fritzapi.go:182-190 | The backlog succeeds if and only if every requested name resolves. It then has at most as many targets as names were requested. |
| Fritz.GenericSuccessHandler | fritz/fritzapi.go:145-148 | The message is kept and there is no error. |
| Fritz.GenericErrorHandler | fritz/fritzapi.go:150-153 | The message is kept. The error is exactly `error toggling device '<key>': <err>`, so it contains both the device name and the original error. |
| Fritz.FailureMessagesConcat | fritz/fritzapi.go:164-168 | The collected errors keep the order of the results they come from. |
| Fritz.FailureMessagesComplete | fritz/fritzapi.go:164-169 | No error is collected if and only if every result succeeded. The error of every failed result is collected. |
| Fritz.TruncateToOne | fritz/fritzapi.go:162-174 | There is no error if and only if every result succeeded. Otherwise the error is the failed results' errors, in result order, joined by "; ". |
| Fritz.Aggregate | fritz/fritzapi.go:155-174 | There is no error if and only if every result succeeded. Otherwise the error is "Not all devices could be processed! Nested errors are: " followed by the joined errors. |
| Fritz.AggregateMentionsEachFailure | fritz/fritzapi.go:155-174 | The combined error contains the error of every failed result. |
| Fritz.GenericResult | fritz/fritzapi.go:155-160 | genericResult returns the combined error of the batch. |
| Fritz.ScatterGather | fritz/fritzapi.go:141 | Every target's work runs exactly once and each reply goes to the handler for its outcome. The order of the results is not fixed. |
| Fritz.DoConcurrently | fritz/fritzapi.go:136-143 | An error from the device list is returned and nothing runs. If a name does not resolve, the not-found error for the first such name is returned and nothing runs. Otherwise every requested device runs exactly once, with the work for its AIN, and the result is the combined error of their outcomes. |
| Fritz.Dispatch | fritz/fritzapi.go:83-143 | SwitchOn, SwitchOff, Toggle and Temperature fetch the device list, then do the same as doConcurrently with that command's work factory. |
| Fritz.CommandTargetUsesOwnAin | fritz/fritzapi.go:84-134 | The work queued for a requested device fetches that command's URL for the device's own AIN. |
| Fritz.FailedDeviceIsReported | fritz/fritzapi.go:141-157 | If a device's exchange fails, the returned error contains the device's name and its error. |
| Fritz.NoErrorIffAllExchangesSucceed | fritz/fritzapi.go:141-160 | A batch returns no error if and only if every device's exchange succeeded. |

## Left out

- HTTP: `HTTPClient.Get`, `httpread.ReadFullyString` and closing the response body are the function parameter `fetch`.
- ListDevices: the device-list request reuses `fetch`. In the source the body goes to the XML decoder unread, so a failure while reading the body comes back as the decode error. The model reports it as a transport error, before decoding. Any status check that `ReadFullyString` makes is also merged into `fetch` for the device list.
- XML decoding of the device list is the parameter `decode`. The devices are reduced to their name and identifier.
- Logging in the two handlers is not modelled. That includes the `strings.TrimSpace` done only for the log line.
- Concurrency: `scatterGather` runs the work items one after another, in an order the model leaves open. Its handler arguments are fixed to `genericSuccessHandler` and `genericErrorHandler`, the only ones this file passes.
- Errors are modelled by their message strings, so `error` values and their identity are not modelled.
- `stringutils.StringKeys`, `stringutils.Quote` and `stringutils.ErrorMessages` are not part of this model. They are taken to list the keys once each in some order, to wrap each string in double quotes, and to take each error's message.
- RoundHalfAwayFromZero: float64 arithmetic is modelled on exact reals. `math.Round` is not part of this model. It is taken to round half away from zero and to return an integer, which `%d` prints in decimal.
- Only the space character is removed from identifiers, as `strings.Replace(…, " ", "", -1)` does. Tabs and other white space are kept.
- The URL keeps the doubled slash that the format `%s://%s:%s/%s` with the path `/webservices/homeautoswitch.lua` produces.
- Fritz.QueryParses: the round trip is stated only for values without '&' and a configuration without '?'. The source does not escape the query, so other inputs do not read back.
- ListDevices: the source also returns a partly decoded list together with a decode error. The model keeps only the error, which is all that `getNameToAinTable` uses.
