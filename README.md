# Pioneer receiver client, modelled in Dafny

The client controls a networked Pioneer audio/video receiver. It turns operations
such as "power on", "set the volume to 42%" or "select HDMI 2" into the receiver's
short text command tokens (`PO`, `077VL`, `<code>FN`, …). It delivers each token by
fetching `http://<host>/EventHandler.asp?WebToHostItem=<token>`. It reads the volume
back from a status document. Two helpers convert the raw volume level to decibels
and format a decibel value for display.

The project has these modules:

- `Typings` (typings.dfy) holds the closed set of input names and the status
  document (`PioneerStatus`, with its zones `Zone`).
- `Decimal` (decimal.dfy) models JavaScript's `String(n)` on naturals
  (`DecimalString`) and its reading back (`ParseDecimal`). It also gives three-digit,
  zero-padded text (`ThreeDigits`).
- `PioneerCommands` (commands.dfy) holds the wire vocabulary. It defines every
  operation as a `Command` and `Token`, the token the client sends for it. It also
  defines `Parse`, which reads a token back into its command. The lemmas prove that
  `Parse` and `Token` are exact inverses, so no two commands share a token.
- `Pioneer` (pioneer.dfy) holds the class `Pioneer`. Its field `sent` records, in
  order, every token handed to `SendCommand`. Each method that sends one command is
  proved to append exactly the token `Token` gives for its operation. `SetVolume`
  appends nothing when the percentage is out of range. `VolumeUp` and `VolumeDown`
  append two step tokens, or one when the first send fails. `GetVol` appends
  nothing. The module also holds the volume scaling in both directions and its
  lossy round trip.
- `Utils` (utils.ts's helpers, in utils.dfy) holds `VolumeToDB` over exact reals and
  `FormatVolume`. `FormatVolume` takes the one-decimal `toFixed` as a parameter.

The network is a `Transport`: a function that says whether the client's n-th
command send, to a given URL, completes. Here n is the number of commands sent
before it (the length of `sent`); status fetches are not counted. A failed fetch
makes `sendCommand` throw, which the model gives as a `Rejected` reply. `setVolume`'s range check does not throw: it
returns an `Error` value, which is the `ReturnedError` reply, and nothing is sent.
`volumeUp` and `volumeDown` await their first send. If that send fails, the second
token is never sent.

A few facts about the code that the model keeps:

- `setVolume` returns an `Error` value for an out-of-range percentage; it does not throw.
- `volumeUp` and `volumeDown` send their step token twice, the second only once the
  first has completed, so only one token is sent when the first send fails. They take no
  step count.
- `setInput` accepts only the closed set of input names, so it has no error case of its own.
- Level 93 maps to exactly −34 dB (`Utils.VolumeToDBMidpoint`).

## Model

| member | source | states |
|---|---|---|
| `Decimal.DecimalString` | src/Pioneer.ts:68 | `String(n)` gives digits only and no leading zero. Reading the text back gives `n`. It has 1, 2 or 3 characters for `n` below 10, 100 or 1000. |
| `Decimal.ThreeDigits` | src/Pioneer.ts:70-71 | The padded text is exactly three digits, and they denote `n`. |
| `Decimal.LeadingZero` | src/Pioneer.ts:70-71 | Prefixing `'0'` keeps a digit string all digits and does not change the number it denotes. So the padding keeps the value. |
| `Decimal.ThreeDigitsOfParse` | src/Pioneer.ts:68-73 | Any three digits are the `ThreeDigits` text of the number they denote. So three-digit text and levels below 1000 correspond one to one. |
| `PioneerCommands.DialogDigit` | src/Pioneer.ts:177-184 | Each dialog-enhancement mode maps to a digit from 0 to 5. |
| `PioneerCommands.DialogModeOf` | src/Pioneer.ts:176-186 | Exactly the characters `'0'`–`'5'` name a dialog mode, and that mode's digit prints as that character. So the six modes get six distinct digits. |
| `PioneerCommands.Flag` | src/Pioneer.ts:194-242 | The leading flag of a two-state setter is one digit. It is `'1'` exactly when the mode is switched on and `'0'` exactly when it is not. |
| `PioneerCommands.Token` | src/Pioneer.ts:45-243 | Every token has at least two characters. A token ends in `'N'` exactly when it selects an input, through its `FN` suffix. Every other token has at most five characters. |
| `PioneerCommands.VolumeTokenShape` | src/Pioneer.ts:67-73 | A volume token has length 5: three digits, then `"VL"`. The digits denote the level. Level 0 gives `"000VL"` and level 185 gives `"185VL"`. |
| `PioneerCommands.ParseSetterToken` | src/Pioneer.ts:186-242 | A mode-setter token (one flag character and a 2- or 3-letter suffix) is read by its flag and suffix alone. |
| `PioneerCommands.ParseFixedToken` | src/Pioneer.ts:45-168 | Each fixed two-letter token (`PO`/`PF`, `VU`/`VD`, `MO`/`MF`, `FU`/`FD`, `BI`/`BD`, `TI`/`TD`) reads back as its own operation. |
| `PioneerCommands.ParseSwitchToken` | src/Pioneer.ts:193-243 | Each two-state setter token reads back as its setter and mode. This covers `"1"`/`"0"` before `PQ`, `ATC`, `ATD`, `IS`, `TO`, `ATA` and `ATG`; `bypass` gives `0TO`. |
| `PioneerCommands.ParseInputToken` | src/Pioneer.ts:120-123 | An input token (code, then `FN`) reads back as a selection of exactly that code. |
| `PioneerCommands.ParseLevelToken` | src/Pioneer.ts:67-73 | A volume token reads back as exactly the level it was built from. |
| `PioneerCommands.ParseDialogToken` | src/Pioneer.ts:176-186 | A dialog-enhancement token (digit, then `ATH`) reads back as exactly its mode. |
| `PioneerCommands.ParseToken` | src/Pioneer.ts:45-243 | Every token the client can send reads back as the operation it was built for. |
| `PioneerCommands.TokenOfParse` | src/Pioneer.ts:45-243 | Any text that reads as an operation is exactly that operation's token. |
| `PioneerCommands.ParseIffToken` | src/Pioneer.ts:45-243 | A text reads as operation `c` if and only if it is `c`'s token. |
| `PioneerCommands.TokenInjective` | src/Pioneer.ts:45-243 | Two commands with the same token are the same command. This holds for all commands, whatever their level, code or mode. Method arguments can still collide: two percentages that scale to one level, or two inputs with one code, send the same token. |
| `Pioneer.RawVolume` | src/Pioneer.ts:67-68 | A percentage in [0,100] scales to ⌊p·185/100⌋, a level in [0,185]. 0% gives 0 and 100% gives 185. |
| `Pioneer.ReadBackAfterSet` | src/Pioneer.ts:68-80 | An integer percentage that `setVolume` stores reads back through `getVol` as itself or one less. |
| `Pioneer.ReadBackIsLossy` | src/Pioneer.ts:68-80 | The read-back is not exact: 1% is stored as level 1 and reads back as 0%. |
| `Pioneer.TwoStepsAreOneDecibel` | src/Pioneer.ts:83-98 | Assuming the receiver moves one level per step token (a premise, not proved here), two steps move the decibel value by exactly 1 dB, up or down. This matches the "1dB" comments of `volumeUp` and `volumeDown`. |
| `Pioneer.Pioneer.constructor` | src/Pioneer.ts:19-23 | The status and command endpoints are the receiver's two handlers on `host`. Nothing has been sent yet. |
| `Pioneer.Pioneer.CommandUrl` | src/Pioneer.ts:22-33 | A command is delivered to `http://<host>/EventHandler.asp?WebToHostItem=` followed by the command. |
| `Pioneer.Pioneer.SendCommand` | src/Pioneer.ts:31-38 | The command is appended to `sent`. The reply is `"ok"` when the transport completes that request. Otherwise it is a rejection with the connection-failure message. |
| `Pioneer.Pioneer.GetVol` | src/Pioneer.ts:76-81 | Zone 0's raw volume becomes ⌊V·100/185⌋. That value is in [0,100] when V is in [0,185]. A status without zones gives no value. |
| `Pioneer.Pioneer.PowerOn` | src/Pioneer.ts:45-47 | Appends exactly the power-on token (`PO`) and nothing else. |
| `Pioneer.Pioneer.PowerOff` | src/Pioneer.ts:52-54 | Appends exactly the power-off token (`PF`) and nothing else. |
| `Pioneer.Pioneer.SetVolume` | src/Pioneer.ts:62-74 | Outside [0,100] it returns the range Error value and sends nothing. Inside, it sends exactly the three-digit token of the scaled level followed by `VL`. |
| `Pioneer.Pioneer.VolumeUp` | src/Pioneer.ts:86-90 | Appends `VU`, `VU` in that order when the first send completes. If the first send fails, it appends only `VU` and rejects. |
| `Pioneer.Pioneer.VolumeDown` | src/Pioneer.ts:95-98 | Appends `VD`, `VD` in that order when the first send completes. If the first send fails, it appends only `VD` and rejects. |
| `Pioneer.Pioneer.Mute` | src/Pioneer.ts:103-105 | Appends exactly the mute token (`MO`). |
| `Pioneer.Pioneer.UnMute` | src/Pioneer.ts:110-112 | Appends exactly the unmute token (`MF`). |
| `Pioneer.Pioneer.SetInput` | src/Pioneer.ts:120-124 | Appends exactly the input's code from the input table, followed by `FN`. |
| `Pioneer.Pioneer.InputNext` | src/Pioneer.ts:129-131 | Appends exactly `FU`. |
| `Pioneer.Pioneer.InputPrev` | src/Pioneer.ts:136-138 | Appends exactly `FD`. |
| `Pioneer.Pioneer.BaseUp` | src/Pioneer.ts:145-147 | Appends exactly `BI`. |
| `Pioneer.Pioneer.BaseDown` | src/Pioneer.ts:152-154 | Appends exactly `BD`. |
| `Pioneer.Pioneer.TrebleUp` | src/Pioneer.ts:159-161 | Appends exactly `TI`. |
| `Pioneer.Pioneer.TrebleDown` | src/Pioneer.ts:166-168 | Appends exactly `TD`. |
| `Pioneer.Pioneer.SetDialogEnhancementMode` | src/Pioneer.ts:176-187 | Appends exactly the mode's digit followed by `ATH`. |
| `Pioneer.Pioneer.SetPQLSMode` | src/Pioneer.ts:193-195 | Appends `1PQ` for auto and `0PQ` for off. |
| `Pioneer.Pioneer.SetEQMode` | src/Pioneer.ts:201-203 | Appends `1ATC` for on and `0ATC` for off. |
| `Pioneer.Pioneer.SetStandingWaveMode` | src/Pioneer.ts:209-211 | Appends `1ATD` for on and `0ATD` for off. |
| `Pioneer.Pioneer.SetPhaseControlMode` | src/Pioneer.ts:217-219 | Appends `1IS` for on and `0IS` for off. |
| `Pioneer.Pioneer.SetToneMode` | src/Pioneer.ts:225-227 | Appends `1TO` for on and `0TO` for bypass. |
| `Pioneer.Pioneer.SetAutoSoundRetrieverMode` | src/Pioneer.ts:233-235 | Appends `1ATA` for on and `0ATA` for off. |
| `Pioneer.Pioneer.SetDigitalNoiseReductionMode` | src/Pioneer.ts:241-243 | Appends `1ATG` for on and `0ATG` for off. |
| `Utils.VolumeToDB` | src/utils.ts:1-9 | Level 1 is −80 dB and level 185 is +12 dB. In between the map is −80 + (level − 1)/2. |
| `Utils.HalfDecibelPerLevel` | src/utils.ts:7-8 | Each level is exactly 0.5 dB above the one below. |
| `Utils.VolumeToDBIncreasing` | src/utils.ts:7-8 | The map is strictly increasing. |
| `Utils.VolumeToDBBelowRange` | src/utils.ts:1-8 | Level 0 is not clamped: it extrapolates to −80.5 dB, below the −80 dB floor. |
| `Utils.VolumeToDBMidpoint` | src/utils.ts:1-8 | Level 93 is exactly −34 dB. |
| `Utils.FormatVolume` | src/utils.ts:11-15 | 0 gives `"0.0 dB"`. A positive value gives `"+"`, its one-decimal text and `" dB"`. A negative value gives its one-decimal text and `" dB"`. Every result ends in `" dB"`. |
| `Utils.PlusSignExactlyWhenPositive` | src/utils.ts:11-15 | Assume the one-decimal text never starts with `'+'`. Then the formatted text starts with `'+'` exactly when the value is positive. |

## Left out

- HTTP transport: the `node-fetch` calls and the promise machinery are not modelled. A fetch is a `Transport` answer, and a promise is a `Reply`.
- `getStatus`: the status fetch and its JSON decoding are not modelled. The cast to the status type is unchecked in the code. `GetVol` takes the decoded status as an argument, and its missing-zone case stands for the error the code would throw.
- The status document's untyped `DM` array is not modelled. The other unused status fields are carried but never read.
- The input table in `./constants` is not part of this model. `Pioneer.inputNums` stands for it, given at construction, and its codes stay abstract.
- Pioneer.Pioneer.SetVolume: takes the percentage as an exact real. JavaScript's `NaN` passes the range check and would send `"NaNVL"`; that case is not modelled.
- Pioneer.Pioneer.GetVol: takes zone 0's `V` as an integer. A fractional or missing `V` (JavaScript `NaN`) is not modelled.
- Floating point: `volumeToDB` is computed over exact reals, not IEEE doubles.
- `toFixed(1)` rounding: `FormatVolume` takes it as a parameter. The text it produces is not modelled.
- Interleaving of calls: the model assumes each call completes before the next one starts. A call that is not awaited could slip its token between the two sends of `volumeUp` or `volumeDown`, and that is not modelled.
- The `VolumeParam` enum in src/typings/index.d.ts is not modelled, because the code never uses it.
