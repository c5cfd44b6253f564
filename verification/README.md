# ff-memless-next: command protocol model

ff-memless-next sits between the kernel's force-feedback core (ff-core) and
a hardware-specific driver. It sorts effects into three classes. Combinable
effects (FF_CONSTANT, FF_PERIODIC, FF_RAMP) are superposed into one combined
force. Uncombinable effects are the conditional ones (FF_DAMPER, FF_FRICTION,
FF_INERTIA, FF_SPRING); each is handed to the driver on its own. FF_RUMBLE
drives the rumble motors. The layer talks to the driver through one callback
that receives a `struct mlnx_effect_command`.

This model covers the contract that the comments and types of
`include/linux/input/ff-memless-next.h` state. The implementation in
ff-memless-next.c is out of scope.

- `Effects`: the effect types and their classification.
- `Commands`: the `mlnx_commands` enumeration with its C values, the payload
  structures, and the tagged command. The command is also given in its C
  layout (opcode plus union), with encoding and decoding between the two.
- `Protocol`: the per-effect-id protocol for uncombinable effects.
  - `Step`/`Replay` is a state machine over a map from effect id to
    `Ready | Playing`. An absent id is not uploaded.
  - `FollowsHeader` states the same rules over the history of driver calls.
    Two of them are the header's own: no START/STOP_UNCOMB without a
    successful UPLOAD, and no ERASE while playing. The others are the
    readings listed under "Modelling decisions" below.
  - The two are proved to agree on every command stream
    (`ValidTraceFollowsHeader`).
- `Dispatcher`: a reference dispatcher for start, stop and erase requests.
  - `Handle` reacts to one request. `Run` folds it over a sequence of
    requests, and the `Dispatch` loop computes exactly that fold.
  - It is proved to send only streams the protocol allows.
  - It sends START_COMBINED / STOP_COMBINED and START_RUMBLE / STOP_RUMBLE
    as the header requires.
  - It uploads before the first start, and stops a playing effect before
    erasing it.
  - A request changes only the state of its own effect.
- `Registration`: the floor on the recalculation delay of
  `input_ff_create_mlnx`.

Modelling decisions:

- The driver's reply to an UPLOAD is a parameter of each request.
  Replies to other commands are ignored by the layer, so they are recorded
  as 0.
- The forces the accumulator computes are parameters too. START_COMBINED
  and START_RUMBLE carry them unchanged.
- The header gives the stop commands no particular payload. Here
  STOP_COMBINED carries a zero force and STOP_RUMBLE carries zero
  magnitudes and zero directions (`NoForce`, `NoRumble`).
- CONFIG_HZ is a parameter of the rate clamp.
- The header allows STOP_UNCOMB for any successfully uploaded effect. The
  protocol model therefore accepts a STOP of an effect that is ready but not
  playing. The dispatcher only sends STOP_UNCOMB for a playing effect.
- A stopped effect and an uploaded effect that has not started share one
  state, `Ready`. The header (lines 33-35) says that after STOP_UNCOMB the
  device stays ready to resume playback at once, as after UPLOAD.
  Only START_UNCOMB (line 30) separates the two.
- UPLOAD is accepted only for an effect that is not playing. The header
  (lines 26-30) describes UPLOAD as coming before playback. A failed UPLOAD
  leaves the id not uploaded, even if an earlier UPLOAD had succeeded. This
  matches "uploaded" meaning "its most recent UPLOAD succeeded".
- ERASE is accepted only for an uploaded effect that is not playing. The
  header (lines 31-33) calls ERASE the opposite of UPLOAD.
- The doc comment of `input_ff_create_mlnx` names the parameter
  `update_date`, but the prototype calls it `update_rate`. The model follows
  the prototype.

## Model

| member | source | states |
|---|---|---|
| Effects.Classify | include/linux/input/ff-memless-next.h:5-16 | an effect type is combinable exactly when it is FF_CONSTANT, FF_PERIODIC or FF_RAMP, uncombinable exactly when it is one of the four conditional effects, and rumble exactly when it is FF_RUMBLE |
| Effects.CategoriesPartition | include/linux/input/ff-memless-next.h:5-16 | the combinable and uncombinable sets are disjoint, rumble is in neither, and every type falls in one of the three classes |
| Commands.Ordinal | include/linux/input/ff-memless-next.h:49-81 | each command kind has its C enumeration value, all below 8 |
| Commands.FromOrdinal | include/linux/input/ff-memless-next.h:49-81 | an integer names a command kind exactly when it lies in 0..7 |
| Commands.OrdinalRoundTrip | include/linux/input/ff-memless-next.h:49-81 | enumeration values and command kinds correspond one to one, in both directions |
| Commands.Encode | include/linux/input/ff-memless-next.h:119-131 | writing a command into `struct mlnx_effect_command` sets `cmd` to that command's kind |
| Commands.Decode | include/linux/input/ff-memless-next.h:119-131 | a C command can be read exactly when its union holds the member its `cmd` selects; what is read has that `cmd` and re-encodes to the same structure |
| Commands.DecodeEncode | include/linux/input/ff-memless-next.h:83-131 | every command, with its simple-force, rumble or uncombinable-effect payload, is read back unchanged from its C form |
| Protocol.Step | include/linux/input/ff-memless-next.h:26-46 | one driver call changes only the slot of the id it addresses; START/STOP_UNCOMB need an uploaded id; ERASE needs an uploaded, non-playing id; UPLOAD needs a non-playing id; an UPLOAD leaves the id uploaded exactly when the driver returned 0; START leaves it playing, STOP leaves it ready, ERASE leaves it not uploaded |
| Protocol.StepAgrees | include/linux/input/ff-memless-next.h:37-46 | against a table that agrees with the history, a call is accepted exactly when the history-based rules permit it, and the new table agrees with the longer history |
| Protocol.ValidTraceFollowsHeader | include/linux/input/ff-memless-next.h:37-46 | a command stream is valid for the state machine exactly when every call obeys the history-based rules over the calls before it; the final table lists exactly the ids whose latest UPLOAD succeeded and that were not erased since, and marks playing exactly those started and not stopped or erased since |
| Protocol.RevokedNeedsReupload | include/linux/input/ff-memless-next.h:31-46 | after an ERASE or a refused UPLOAD of an id, any later START, STOP or ERASE of that id has a successful UPLOAD of it in between |
| Protocol.NoStartAfterFailedUpload | include/linux/input/ff-memless-next.h:37-45 | after the driver refuses an UPLOAD, no START_UNCOMB of that id comes without a new successful UPLOAD in between |
| Protocol.NoStartAfterErase | include/linux/input/ff-memless-next.h:76-79 | after ERASE_UNCOMB of an id, a START_UNCOMB of it needs a new successful UPLOAD in between |
| Protocol.NoEraseWhilePlaying | include/linux/input/ff-memless-next.h:43-46 | an ERASE_UNCOMB of an id is sent only if every earlier START_UNCOMB of it was followed by a STOP_UNCOMB or ERASE_UNCOMB |
| Protocol.StopThenRestart | include/linux/input/ff-memless-next.h:33-35 | after STOP_UNCOMB the effect is uploaded and ready, and a START_UNCOMB of it is accepted at once, without a new UPLOAD |
| Dispatcher.UncombReaction | include/linux/input/ff-memless-next.h:37-46 | the commands sent for a request on an uncombinable effect are a valid continuation of the stream and end in the dispatcher's new slot table; the request fails exactly when it starts an effect that is not uploaded and the driver refuses the UPLOAD |
| Dispatcher.UncombRules | include/linux/input/ff-memless-next.h:26-46 | for an uncombinable effect: a start sends UPLOAD first when the effect is not uploaded, then START_UNCOMB unless the driver refused; a stop sends STOP_UNCOMB exactly when the effect plays; an erase sends STOP_UNCOMB first when it plays, then ERASE_UNCOMB when it is uploaded; every command addresses this effect, the UPLOAD carries the driver's reply, and no other slot or class changes |
| Dispatcher.Handle | include/linux/input/ff-memless-next.h:37-46 | each request's commands are a valid continuation of the stream; a start fails exactly when the driver refuses the UPLOAD of an effect not yet uploaded, and then only that UPLOAD was sent and nothing changes |
| Dispatcher.HandleRules | include/linux/input/ff-memless-next.h:49-64 | a request changes only its own effect, and only in its own class; a start, or a stop of an active effect, sends exactly one command for its class: STOP_COMBINED with zero force (STOP_RUMBLE with zero rumble) when no effect of the class remains, else START_COMBINED (START_RUMBLE) with the accumulated value; a stop of an inactive effect sends nothing; STOP_UNCOMB only for a playing effect; starts leave the effect active, stops inactive (an uncombinable one still uploaded), erases leave an uncombinable one not uploaded |
| Dispatcher.RunKeepsRules | include/linux/input/ff-memless-next.h:55-64 | over any run of requests, each reaction sends STOP_COMBINED/STOP_RUMBLE only when no effect of the class is left, and always when the last one goes; a request fails exactly when it starts a not-uploaded uncombinable effect and the driver refuses the UPLOAD |
| Dispatcher.Dispatch | include/linux/input/ff-memless-next.h:41-46 | the loop produces exactly the fold of `Handle` over the requests, its stream is the concatenation of their commands, and it replays to the final slot table; from a freshly registered device the stream is valid and obeys the history-based rules |
| Registration.EffectiveDelay | include/linux/input/ff-memless-next.h:140-149 | the recalculation delay is the larger of `update_rate` and CONFIG_HZ / 1000 + 1: never below either, and equal to one of them |
| Registration.EffectiveDelayKeepsOrder | include/linux/input/ff-memless-next.h:140-145 | the clamp keeps the order of two rates and leaves a rate at or above the floor unchanged |

## Left out

- ff-memless-next.c is not part of this model. Only the contract the header states is modelled. The module's own timing, locking and effect bookkeeping are not.
- Envelope, periodic-waveform and ramp computation, and the superposition of forces: these belong to ff-memless-next.c, and the header does not say how the s32 sums overflow. The net force and rumble values are inputs to the dispatcher.
- The policy for merging several simultaneous rumble effects: the header does not state one.
- Registration of the input device and the `struct input_dev` plumbing of `input_ff_create_mlnx`: these are calls into the kernel's input core, outside this layer. Only the clamp of `update_rate` is modelled.
- The `control_effect` function pointer, the freeing of the device data, and the rule that the command pointer is valid only during the callback (lines 151-161): these concern memory and lifetimes, not behaviour the model can state.
- The recalculation timer and per-device locking: they concern timing and concurrency. Requests are handled one at a time, in order.
- The parameters of `struct ff_effect` other than its type: the protocol does not depend on them.
- Dispatcher.Handle: assumes ff-core keeps the type of an effect id across requests, as ff-core does on update. A request that names a known id with an effect of another class (`Play(1, FF_CONSTANT)` then `Remove(1, FF_DAMPER)`) is routed by the new type. Id 1 then stays in the combined set, and no STOP_COMBINED follows.
