# CoAP Observe server (nRF51 IoT SDK example `server_observe`)

A model of the application logic of the Nordic nRF51 IoT SDK example that
serves one LED over CoAP (RFC 7252) and lets clients observe it (RFC 7641).
The server serves two resources, `/.well-known/core` for discovery and
`/lights/led3` for the LED. A client reads led3 with GET, sets it with PUT
(the first payload byte decides: `'0'` off, `'1'` on, `'2'` toggle), and
registers as an observer with a GET that carries Observe 0. Every observer
gets a 2.05 notification with the next Observe sequence number and a
Max-Age:

- after each PUT;
- after each press of button one;
- once a second tick finds that led3's freshness countdown has reached its
  margin. Every fourth of these scheduled pushes is confirmable, so that
  observers that have gone away show up. A reset or time-out reported for
  such a notification frees the first slot keyed by the observer's remote
  and led3. Registration does not look for an existing entry, so a client
  that registered twice holds two slots; it keeps the second one and is
  notified twice per sweep.

Modules:

- `Coap`: protocol vocabulary, uint32 wrap-around, and the rule that picks
  a response's type from the request's type; content negotiation.
- `Resources`: the resource tree, permissions, callbacks, supported formats
  and Max-Age that `coap_endpoints_init` configures.
- `Registry`: the CoAP library's observer table, seen from the server. It
  has a fixed number of slots. Register, search, unregister and next_get
  are given by their contract: first free slot, first matching slot, clear
  the slot, next occupied slot after a cursor.
- `Exchange`: requests as a resource callback receives them, and the
  messages the server hands to `coap_message_send`.
- `Led3Value`: the PUT command bytes and the payloads of `led_value_get`,
  with a parser showing that each payload determines the LED state.
- `Notify`: the notifications of one sweep, as a function of the observer
  table.
- `Schedule`: the countdown and the confirmable cadence of
  `app_coap_time_tick`, over any number of ticks.
- `Server`: the class `ObserveServer`, which holds the mutable state:
  - the LED;
  - the Observe sequence counter;
  - led3's `expire_time`;
  - `msg_count`;
  - the observer table;
  - the sequence of messages sent.

  Its methods are the event handlers. Each one promises its whole new
  state in terms of the functions above.

The environment is represented as follows:

- The message layer is the `outbox` sequence: each call to
  `coap_message_send` appends one message.
- Physical LED operations are updates of a boolean.
- Timer and button events are method calls.
- The discovery document is a constant of the server.
- The initial `expire_time` is a constructor parameter: the value comes from
  `coap_resource_create`, which is not part of this model.

## Model

| member | source | states |
|---|---|---|
| Coap.Add32Step | nrf51_iot_sdk_0.8.0_f1f6187/Nordic/nrf51/examples/iot/coap/ipv6/server_observe/main.c:124 | Incrementing a uint32_t counter n times and then once more is the same as incrementing it n + 1 times, wrap-around modulo 2^32 included |
| Coap.ResponseType | nrf51_iot_sdk_0.8.0_f1f6187/Nordic/nrf51/examples/iot/coap/ipv6/server_observe/main.c:636-643 | The piggy-backed response to a NON request is NON and to a CON request is ACK; the response to any other type is CON, the zero value the configuration is cleared to; a response is never RST by this rule |
| Coap.MatchSelect | nrf51_iot_sdk_0.8.0_f1f6187/Nordic/nrf51/examples/iot/coap/ipv6/server_observe/main.c:669-677 | The negotiated format is one the client accepts and the resource supports, and no earlier accepted format is supported; negotiation fails exactly when the two share no format |
| Led3Value.ParseCommand | nrf51_iot_sdk_0.8.0_f1f6187/Nordic/nrf51/examples/iot/coap/ipv6/server_observe/main.c:756-777 | Bytes 0x30, 0x31 and 0x32 name off, on and toggle, each exactly one command; every other byte names none, and that is the 4.00 case |
| Led3Value.Apply | nrf51_iot_sdk_0.8.0_f1f6187/Nordic/nrf51/examples/iot/coap/ipv6/server_observe/main.c:758-771 | LEDS_ON leaves the LED on and LEDS_OFF leaves it off whatever it was; LEDS_INVERT flips it |
| Led3Value.ApplyTwice | nrf51_iot_sdk_0.8.0_f1f6187/Nordic/nrf51/examples/iot/coap/ipv6/server_observe/main.c:758-771 | Repeating on or off changes nothing, toggling twice restores the state, and only toggle depends on the previous state |
| Led3Value.LedPayload | nrf51_iot_sdk_0.8.0_f1f6187/Nordic/nrf51/examples/iot/coap/ipv6/server_observe/main.c:471-494 | For JSON the payload is the object `{"led3": True}` or `{"led3": False}`; for any other format it is the single digit `1` when the LED is on and `0` when it is off; it holds no NUL, so strlen covers all of it |
| Led3Value.ParseLedPayload | nrf51_iot_sdk_0.8.0_f1f6187/Nordic/nrf51/examples/iot/coap/ipv6/server_observe/main.c:471-494 | Reading a payload back gives `on` exactly when the payload is what led_value_get writes for `on` in that format, so the JSON and the plain-text encodings are both injective |
| Resources.EndpointConfiguration | nrf51_iot_sdk_0.8.0_f1f6187/Nordic/nrf51/examples/iot/coap/ipv6/server_observe/main.c:803-848 | core sits at `.well-known/core` with GET only and the discovery callback; led3 sits at `lights/led3` with GET, PUT and Observe, the led3 callback, JSON and plain text, and Max-Age 15; no two resources share a path |
| Registry.FirstFree | nrf51_iot_sdk_0.8.0_f1f6187/Nordic/nrf51/examples/iot/coap/ipv6/server_observe/main.c:719 | The slot a registration takes is free, and every slot before it is occupied; no slot is found exactly when the table is full |
| Registry.Search | nrf51_iot_sdk_0.8.0_f1f6187/Nordic/nrf51/examples/iot/coap/ipv6/server_observe/main.c:733 | The slot found holds an observer of that resource at that remote, and no earlier slot does; the search fails exactly when no slot does |
| Registry.Scan | nrf51_iot_sdk_0.8.0_f1f6187/Nordic/nrf51/examples/iot/coap/ipv6/server_observe/main.c:534 | next_get finds the first slot after the cursor that holds an observer of the resource, and skips only slots that do not |
| Registry.NextGet | nrf51_iot_sdk_0.8.0_f1f6187/Nordic/nrf51/examples/iot/coap/ipv6/server_observe/main.c:534 | next_get returns a slot after the cursor (any slot when there is none) that holds an observer of the resource, and no slot between the cursor and it holds one; it fails exactly when no later slot does |
| Registry.ScanAfterClear | nrf51_iot_sdk_0.8.0_f1f6187/Nordic/nrf51/examples/iot/coap/ipv6/server_observe/main.c:534 | Freeing a slot at or before the cursor does not change which observer the scan from the cursor finds next |
| Registry.RegisterEffect | nrf51_iot_sdk_0.8.0_f1f6187/Nordic/nrf51/examples/iot/coap/ipv6/server_observe/main.c:701-727 | A registration puts the observer into a slot that was free and adds exactly one observer; it fails exactly when every slot is taken, and then the table is unchanged |
| Registry.Register | nrf51_iot_sdk_0.8.0_f1f6187/Nordic/nrf51/examples/iot/coap/ipv6/server_observe/main.c:719 | The table keeps its size; the first free slot receives the observer and every other slot is as it was; with no free slot the table is unchanged |
| Registry.RemoveObserverEffect | nrf51_iot_sdk_0.8.0_f1f6187/Nordic/nrf51/examples/iot/coap/ipv6/server_observe/main.c:731-738 | Search and unregister free exactly the first slot keyed by (remote, resource) and leave every other slot as it was; with no such slot nothing changes |
| Registry.RemoveObserver | nrf51_iot_sdk_0.8.0_f1f6187/Nordic/nrf51/examples/iot/coap/ipv6/server_observe/main.c:731-738 | The table keeps its size; the slot the search finds is freed and every other slot is as it was; when the search fails the table is unchanged |
| Notify.SubscribersExact | nrf51_iot_sdk_0.8.0_f1f6187/Nordic/nrf51/examples/iot/coap/ipv6/server_observe/main.c:534 | An observer is visited by the sweep exactly when it is registered for the resource |
| Notify.SubscribersCount | nrf51_iot_sdk_0.8.0_f1f6187/Nordic/nrf51/examples/iot/coap/ipv6/server_observe/main.c:534 | An observer of the resource is visited as many times as slots hold it, so a client registered twice is notified twice per sweep; an observer of another resource is not visited |
| Notify.SubscribersBound | nrf51_iot_sdk_0.8.0_f1f6187/Nordic/nrf51/examples/iot/coap/ipv6/server_observe/main.c:534 | A sweep visits at most as many observers as are registered, and so at most as many as the table has slots |
| Notify.Notification | nrf51_iot_sdk_0.8.0_f1f6187/Nordic/nrf51/examples/iot/coap/ipv6/server_observe/main.c:537-568 | The notification the sweep body builds for one observer; what it promises (a 2.05 of the sweep type to the observer's remote under its token, Observe then Max-Age, the LED in the observer's format, the observer as callback argument) is stated for every message of a sweep by Notify.SweepMessages |
| Notify.Sweep | nrf51_iot_sdk_0.8.0_f1f6187/Nordic/nrf51/examples/iot/coap/ipv6/server_observe/main.c:529-578 | A sweep holds exactly one message per subscriber (their contents: Notify.SweepMessages) |
| Notify.SweepMessages | nrf51_iot_sdk_0.8.0_f1f6187/Nordic/nrf51/examples/iot/coap/ipv6/server_observe/main.c:529-578 | One sweep sends one 2.05 per subscriber, to its remote, under its token, with the sweep's type and Max-Age and the LED in its format, with the observer as the callback argument; the Observe values start at the counter and go up by one modulo 2^32 |
| Schedule.CadenceSurvivesWrap | nrf51_iot_sdk_0.8.0_f1f6187/Nordic/nrf51/examples/iot/coap/ipv6/server_observe/main.c:1000-1015 | msg_count modulo 4 equals the true push count modulo 4 even after msg_count wraps, so every fourth push stays confirmable |
| Schedule.MsgCountStep | nrf51_iot_sdk_0.8.0_f1f6187/Nordic/nrf51/examples/iot/coap/ipv6/server_observe/main.c:1015 | Incrementing msg_count keeps it equal to the push count modulo 2^32 |
| Schedule.RunSplit | nrf51_iot_sdk_0.8.0_f1f6187/Nordic/nrf51/examples/iot/coap/ipv6/server_observe/main.c:1002-1020 | The countdown and the push count over a + b ticks are those of a ticks followed by b ticks |
| Schedule.CountdownQuiet | nrf51_iot_sdk_0.8.0_f1f6187/Nordic/nrf51/examples/iot/coap/ipv6/server_observe/main.c:1017-1020 | While the countdown is above the margin it loses one per tick and nothing is pushed |
| Schedule.PushPeriod | nrf51_iot_sdk_0.8.0_f1f6187/Nordic/nrf51/examples/iot/coap/ipv6/server_observe/main.c:1002-1020 | After a re-arm to max-age nothing is pushed for max-age - 2 ticks; the next tick pushes once and re-arms again, so pushes repeat with period max-age - 1 |
| Schedule.ExpireBounded | nrf51_iot_sdk_0.8.0_f1f6187/Nordic/nrf51/examples/iot/coap/ipv6/server_observe/main.c:1002-1020 | A countdown that starts at most max-age stays at most max-age whatever the number of ticks |
| Server.SweepLoop | nrf51_iot_sdk_0.8.0_f1f6187/Nordic/nrf51/examples/iot/coap/ipv6/server_observe/main.c:529-578 | The next_get loop builds exactly the sweep of the table's led3 observers in slot order, and leaves the counter advanced by their number |
| Server.ObserveServer.constructor | nrf51_iot_sdk_0.8.0_f1f6187/Nordic/nrf51/examples/iot/coap/ipv6/server_observe/main.c:123-124 | At start-up the LED is off, the sequence counter and msg_count are zero, no observer is registered and nothing has been sent |
| Server.ObserveServer.NotifyAll | nrf51_iot_sdk_0.8.0_f1f6187/Nordic/nrf51/examples/iot/coap/ipv6/server_observe/main.c:529-578 | The messages sent are the sweep of the current led3 observers, stamped from the current counter with Max-Age expire_time; the counter advances by one per observer and nothing else changes |
| Server.ObserveServer.HandleGet | nrf51_iot_sdk_0.8.0_f1f6187/Nordic/nrf51/examples/iot/coap/ipv6/server_observe/main.c:665-750 | GET without a common format gets 4.15 of type RST. Otherwise it gets 2.05 with the LED in the negotiated format. Observe 0 registers the client; only a registration that succeeds adds Observe and Max-Age and takes a sequence number. Any other Observe value frees the first slot keyed by the client's remote and led3; a second registration of the same client stays |
| Server.ObserveServer.HandlePut | nrf51_iot_sdk_0.8.0_f1f6187/Nordic/nrf51/examples/iot/coap/ipv6/server_observe/main.c:751-798 | PUT applies the command to the LED and answers 2.04, or leaves the LED and answers 4.00 for an unknown byte; then every observer gets a NON notification of the new value |
| Server.ObserveServer.HandleLed3 | nrf51_iot_sdk_0.8.0_f1f6187/Nordic/nrf51/examples/iot/coap/ipv6/server_observe/main.c:631-800 | Every request gets exactly one response, sent first, echoing its message ID, token and remote, typed NON for NON, ACK for CON and CON otherwise, except RST for 4.15. GET and PUT behave as above (a deregistering GET frees only the first slot keyed by the client); any other method gets 4.05 and changes nothing |
| Server.ObserveServer.HandleWellKnownCore | nrf51_iot_sdk_0.8.0_f1f6187/Nordic/nrf51/examples/iot/coap/ipv6/server_observe/main.c:581-628 | Discovery always answers 2.05 with Content-Format link-format and the generated document, echoing the request, and changes nothing else |
| Server.ObserveServer.Tick | nrf51_iot_sdk_0.8.0_f1f6187/Nordic/nrf51/examples/iot/coap/ipv6/server_observe/main.c:994-1021 | At or below the 2-second margin the countdown is re-armed to 15 and every observer is notified, CON on push 0, 4, 8, … and NON otherwise; msg_count advances. Above the margin the countdown loses one and nothing is sent |
| Server.ObserveServer.OnResultAsWritten | nrf51_iot_sdk_0.8.0_f1f6187/Nordic/nrf51/examples/iot/coap/ipv6/server_observe/main.c:497-526 | A reset or time-out frees the first slot keyed by the observer's remote and resource. When none is found the device halts, with every LED switched on first (main.c:139), so LED_THREE reads on. Every other outcome changes nothing |
| Server.ObserveServer.OnResult | nrf51_iot_sdk_0.8.0_f1f6187/Nordic/nrf51/examples/iot/coap/ipv6/server_observe/main.c:497-526 | Corrected callback: a reset or a time-out frees the first slot keyed by the observer's remote and resource, if there is one; a second registration of the same client stays. No other slot changes, and the server never halts |
| Server.ObserveServer.ButtonEvent | nrf51_iot_sdk_0.8.0_f1f6187/Nordic/nrf51/examples/iot/coap/ipv6/server_observe/main.c:856-866 | Pushing button one inverts the LED and notifies every observer with NON; releasing it or another button changes nothing |
| Server.StaleObserverHalts | nrf51_iot_sdk_0.8.0_f1f6187/Nordic/nrf51/examples/iot/coap/ipv6/server_observe/main.c:510-513 | On a table where the observer holds at most one slot, the search after deregistering it fails, so a later failure callback reaches the halting error check |
| Server.PushDeregisterTimeout | nrf51_iot_sdk_0.8.0_f1f6187/Nordic/nrf51/examples/iot/coap/ipv6/server_observe/main.c:497-526 | With one observer of led3 and a due tick whose push is confirmable, the tick sends a CON notification whose callback argument is that observer; after a GET with a nonzero Observe value from the same client, a time-out of that notification halts the device: the callback reports fatal and the LED is on |
| Server.PutThenGet | nrf51_iot_sdk_0.8.0_f1f6187/Nordic/nrf51/examples/iot/coap/ipv6/server_observe/main.c:665-800 | After a valid PUT the LED holds the commanded state, and a GET that follows returns a payload that decodes to that state |

## Left out

- BLE advertising, the IPv6 interface events, ICMP router solicitation, the LED blink display, the timer, button and stack initialisation, and `power_manage` are hardware and event plumbing. They do not change the resource state.
- `coap_time_tick` retransmits pending confirmable messages. That is internal to the message layer, which is not part of this model.
- APP_ERROR_CHECK on the library calls that build and send a message, and on `coap_observe_server_unregister` after a successful search (main.c:516 and main.c:737), is not modelled; those calls are assumed to succeed. The one check that the server can trip through its own state, in the delivery callback, is modelled (see Findings).
- Server.ObserveServer.HandleLed3: requires a PUT payload of at least one byte, because the source reads the first payload byte without checking the length. For an empty payload that read is some byte outside the message, which this model does not give a value.
- Decoding the Observe option is not modelled. A request carries the decoded value of its first Observe option; the halt on an undecodable value is not modelled.
- Coap.MatchSelect: models `coap_message_ct_match_select` as the first accepted format the resource supports. The library is not part of this model, and a request without an Accept option must be given as the list the library substitutes for it.
- Notifications carry the server port and message ID 0 as configured. The library assigns the real message ID; the local port is not modelled.
- The discovery document is a constant of the server. `coap_resource_well_known_generate` is not part of this model, and neither is the 100-byte buffer.
- The delivery callback receives a pointer into the library's observer table and reads it when the callback runs. The model passes the observer's value as it was when the notification was sent, so a slot reused in between is not captured.
- Permission checks and path resolution before a callback runs belong to the library. The model gives the permissions and paths (`Resources`) but does not route requests.
- The Observe sequence number wraps modulo 2^32, as the uint32_t counter does. The 24-bit limit of the Observe option (RFC 7641 section 3.4) is not modelled, nor is the option's encoding.
- The JSON payloads are bytes as written (`{"led3": True}`), which is not valid JSON. The model keeps them as they are.

## Findings

| source | as written | input that shows it | evidently intended | confidence | as-written member | corrected member |
|---|---|---|---|---|---|---|
| nrf51_iot_sdk_0.8.0_f1f6187/Nordic/nrf51/examples/iot/coap/ipv6/server_observe/main.c:510-513 | a reset or time-out of a notification searches for its observer and halts through APP_ERROR_CHECK when none is found | an observer receives a confirmable notification, deregisters with a GET carrying Observe 1 before it is acknowledged, and the notification then times out | an observer that is no longer registered is ignored and the server carries on (RFC 7641 section 4.5) | medium; not executed | Server.ObserveServer.OnResultAsWritten, Server.StaleObserverHalts, Server.PushDeregisterTimeout | Server.ObserveServer.OnResult |
