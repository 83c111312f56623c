# rpi_manulathe core in Dafny

This project models the decision logic of a small lathe retrofit built on
LinuxCNC. It covers five sequential, tick-driven pieces, and proves what each
piece promises.

- **Override wheel of the Touchy lathe screen** (module `Manulathe`, class
  `Manulathe.Touchy`).
  - One hand-wheel delta per tick goes to exactly one of five tracks: feed
    override, spindle override, spindle RPM, maximum/jog velocity, or program
    listing scroll.
  - While the screen updates its own buttons, mode requests are masked.
  - Each tick first forces the mode to be legal for the run mode and the
    open tab.
  - Every track is clamped, and a machine command is pushed under the
    conditions the code uses.
  - The periodic status pass resynchronises the file chooser only when the
    loaded program changed.
  - Also modelled: `trivkins` on the INI KINEMATICS entry, and the units
    test with its conversion factors.
- **Program file catalog** (module `FileCatalog`, class
  `FileCatalog.FileChooser`).
  - The list of G-code programs is the sorted local group, then (only when
    USB programs exist) the separator `--- USB ---`, then the sorted USB
    group.
  - The chooser's `selected` and `fileoffset` are updated by `select`,
    `up`, `down`, and the two-phase lookup of `select_and_show` (exact path
    first, then basename).
- **Jog/feed mixer HAL component** (module `JogFeed`, class
  `JogFeed.JogFeedController`). One call of `update()` per servo period
  mixes three inputs into one accumulator:
  - the joystick (a velocity step);
  - the MPG hand wheel (counts times a scale);
  - the spindle-synchronised feed;
  - plus a rising-edge toggle of the speed range.
- **T3D servo driver, main loop** (module `ServoLoop`).
  - Chooses the control word from the pins.
  - Writes the control word and the speed only when they changed, and
    remembers them only when the write succeeded.
  - Handles the reset-alarm pin and the on-pin transitions.
  - Attempts the connection, then reads the alarm register once per second
    of the 64-bit nanosecond clock.
- **T3D servo driver, Modbus side** (module `ServoModbus`, classes
  `ServoModbus.Servo` and `ServoModbus.ModbusGlobals`).
  - The reconnect-attempt counter, and the guards and success path of
    `init_modbus`.
  - The read/write wrappers and their failure handling.
  - `readParams`, which splits each `key=value` argument in place by
    writing a NUL over the `=` and restores it afterwards. It parses
    `slave=` the way `strtol` does. The arguments are `array<char>` buffers.

Each operation that changes state is a method on a class. Its `ensures`
clauses relate the new state to a pure function of the old state, for
example `ServoLoop.MainLoopPass` against `ServoLoop.Iteration`. The
properties the code promises are proved as lemmas about those functions.

The outside world enters as parameters:
- library results: libmodbus return codes, the register value read, whether
  a context could be created, the device found by the serial search;
- directory listings, with `isfile`/`isdir` answers and `OSError` as a
  missing listing;
- the machine status poll, the hand-wheel delta and its reset button;
- the clock value of each pass.

Three logs record what is issued, each in the order issued:
- `sent` (the servo records): the requests put on the Modbus bus.
- `trace` (`Manulathe.Touchy`): the calls of the screen itself. These are
  machine commands, `resetSpindel` to the HAL side, and the listing calls
  `next` and `clear_startline`.
- `commands` (`FileCatalog.FileChooser`): the calls of the file chooser. These
  are the machine commands `mode(MODE_MDI)` and `program_open` and the
  listing call `readfile`.

The order between `trace` and `commands` is not recorded. For example,
`fileselect` issues `program_open` (in `commands`) before `clear_startline`
(in `trace`), and the model does not say so.

Behaviour of the code worth knowing:
- `reload()` does not reset `fileoffset`.
- `down()` can leave `fileoffset` off a page boundary
  (`FileCatalog.DownNotPageAligned`).
- Scrolling moves the listing by `d * 10 ** (2 - wheelinc)` with `wheelinc`
  fixed at 0, so by `100 * d`.
- The feed, spindle and velocity overrides are pushed whenever `d != 0`,
  even when the value is pinned at a limit. The RPM track instead pushes
  only when the value changed, on reset as well as on a step.
- When KINEMATICS mentions `coordinates` but holds no `coordinates=` once
  spaces are removed, `trivkins` raises IndexError. `Manulathe.Trivkins`
  returns `None` for that case.
- `spindle_faster`/`spindle_slower` test the bound before stepping, so they
  can overshoot it by one increment (`Manulathe.SpindleButtonsOvershoot`).
- Disabling the servo component writes the off command but keeps
  `last_command`. Re-enabling with the same pins therefore does not send the
  command again (`ServoLoop.DisableKeepsCommand`).

## Model

| member | source | states |
|---|---|---|
| FileCatalog.Basename | touchy/t_lib/filechooser.py:90-92 | os.path.basename contains no slash and is no longer than the path |
| FileCatalog.BasenameIsLastPart | touchy/t_lib/filechooser.py:90-92 | the basename ends the path and is preceded by a slash when shorter than it, so it is the part after the last slash |
| Common.Lower | touchy/t_lib/filechooser.py:127 | `str.lower()` on ASCII: same length, each letter lowered |
| Common.Upper | touchy/touchy_manulathe.py:892 | `str.upper()` on ASCII: same length, each letter raised |
| Common.TruncToward0 | components/jog_feed_controller.c:162 | the C conversion of a floating value to an integer: the integer part, truncated toward zero |
| FileCatalog.BasenameOfJoin | touchy/t_lib/filechooser.py:128 | the basename of `join(dir, name)` is `name` for a plain name |
| FileCatalog.Join | touchy/t_lib/filechooser.py:128 | the joined path is the directory, one slash, then the name |
| FileCatalog.HasProgramExtension | touchy/t_lib/filechooser.py:122-127 | a name that passes the extension test is at least three characters long (`.nc`) |
| FileCatalog.ExtensionIgnoresCase | touchy/t_lib/filechooser.py:127 | the test answers the same for a name and its lower-case form |
| FileCatalog.Kept | touchy/t_lib/filechooser.py:127-129 | a kept entry is a regular file whose name is long enough to carry an extension |
| FileCatalog.NameLeRefl | touchy/t_lib/filechooser.py:134 | Python's string order is reflexive |
| FileCatalog.NameLeTotal | touchy/t_lib/filechooser.py:134 | Python's string order is total |
| FileCatalog.NameLeTrans | touchy/t_lib/filechooser.py:134 | Python's string order is transitive |
| FileCatalog.NameLeAntisym | touchy/t_lib/filechooser.py:134 | Python's string order is antisymmetric |
| FileCatalog.NameLe | touchy/t_lib/filechooser.py:134 | Python's string order: a prefix comes first, and only the empty string is at or before the empty string |
| FileCatalog.Insert | touchy/t_lib/filechooser.py:134 | inserting adds one entry |
| FileCatalog.SortByName | touchy/t_lib/filechooser.py:134 | sorting keeps the length |
| FileCatalog.InsertPermutes | touchy/t_lib/filechooser.py:134 | inserting into the sorted list adds exactly the one entry (multiset) |
| FileCatalog.InsertSorted | touchy/t_lib/filechooser.py:134 | inserting into a sorted list keeps it sorted by name |
| FileCatalog.SortByNameCorrect | touchy/t_lib/filechooser.py:134 | `sort(key=name)` gives a list sorted by name that is a permutation of its input |
| FileCatalog.InsertKeepsOrderOfEqualNames | touchy/t_lib/filechooser.py:134 | an inserted entry goes before the entries with the same name that are already there, whose order is kept |
| FileCatalog.SortByNameStable | touchy/t_lib/filechooser.py:152 | the sort is stable: entries with equal names keep their relative order |
| FileCatalog.ProgramsIn | touchy/t_lib/filechooser.py:126-130 | each collected entry is a listed regular file with a program extension, paired with its joined path; every such listed file is collected |
| FileCatalog.Merge | touchy/t_lib/filechooser.py:152-158 | the local group, plus one separator and the USB group only when the USB group is non-empty; the separator is in the result iff the USB group is non-empty or the local group holds one |
| FileCatalog.LocalPrograms | touchy/t_lib/filechooser.py:123-131 | with no local directory listing the local group is empty |
| FileCatalog.LocalProgramsExact | touchy/t_lib/filechooser.py:123-131 | every local entry is a kept regular file of the local listing with its joined path, and every kept file of the listing is an entry |
| FileCatalog.MediaPrograms | touchy/t_lib/filechooser.py:136-150 | with no media root listing the USB group is empty |
| FileCatalog.Catalog | touchy/t_lib/filechooser.py:119-158 | the list holds the local programs, and the separator and the USB programs only when there are USB programs |
| FileCatalog.UsbPrograms | touchy/t_lib/filechooser.py:140-148 | every USB entry has a path and a program extension |
| FileCatalog.UsbProgramsSound | touchy/t_lib/filechooser.py:140-148 | every USB entry is a kept file of a mount that is a listed directory reached by the scan (no earlier directory failed to list), with the file name as display name and the mount path joined with it as path |
| FileCatalog.UsbProgramsComplete | touchy/t_lib/filechooser.py:140-148 | every kept file of every listed directory mount that the scan reaches is collected with its joined path |
| FileCatalog.CollectPrograms | touchy/t_lib/filechooser.py:126-130 | the append loop over one listing collects exactly `ProgramsIn` |
| FileCatalog.CollectUsb | touchy/t_lib/filechooser.py:138-150 | the loop over the mounts collects exactly `UsbPrograms`, stopping at the first listing that raises OSError |
| FileCatalog.BuildCatalog | touchy/t_lib/filechooser.py:119-158 | the body of reload produces exactly `Catalog` |
| FileCatalog.SortKeepsPaths | touchy/t_lib/filechooser.py:152 | sorting entries that all have paths yields entries that all have paths |
| FileCatalog.CatalogGroups | touchy/t_lib/filechooser.py:154-158 | the files are the sorted local group, then the separator and the sorted USB group exactly when USB programs exist; the length counts these |
| FileCatalog.CatalogLayout | touchy/t_lib/filechooser.py:134-158 | local group sorted and a permutation of the local programs; separator, then the USB group sorted and a permutation of the USB programs, when there are any |
| FileCatalog.CatalogSeparator | touchy/t_lib/filechooser.py:156-157 | the separator is in the list iff USB programs exist, and it is the only entry without a path, right after the local group |
| FileCatalog.CatalogEntriesArePrograms | touchy/t_lib/filechooser.py:122-148 | every entry with a path has a program extension; a local one is a regular file of the local listing under the local directory; one after the separator comes from a reached, listed USB mount |
| FileCatalog.CatalogUsbEntry | touchy/t_lib/filechooser.py:138-158 | an entry after the separator is a file of a reached, listed USB mount, with its joined path |
| FileCatalog.KeptExamples | touchy/t_lib/filechooser.py:127 | `a.ngc` and `PART.NC` (upper case) are kept |
| FileCatalog.DroppedExamples | touchy/t_lib/filechooser.py:127-129 | `notes.txt`, the bare name `tap`, and an `old.ngc` that is not a regular file are dropped |
| FileCatalog.MergeExample | touchy/t_lib/filechooser.py:154-158 | two local programs and one USB program give the sorted local pair, the separator, then the USB program |
| FileCatalog.FirstExact | touchy/t_lib/filechooser.py:83-87 | the index of the first entry whose path is `fn`, or -1 when no entry has that path |
| FileCatalog.FirstBasename | touchy/t_lib/filechooser.py:89-94 | the index of the first entry with a non-empty path whose basename is `base`, or -1 when there is none |
| FileCatalog.Lookup | touchy/t_lib/filechooser.py:80-97 | -1 or an index of the list; a found entry matches `fn` exactly or by basename |
| FileCatalog.LookupPrefersExact | touchy/t_lib/filechooser.py:83-95 | an exact path match wins over any basename match; the result is an exact match at or before every exact match |
| FileCatalog.LookupFallback | touchy/t_lib/filechooser.py:89-97 | without an exact match the first basename match is chosen, and -1 results when no entry matches either way |
| FileCatalog.Locate | touchy/t_lib/filechooser.py:83-95 | the two search loops compute `Lookup`, and a found index names an entry with a path |
| FileCatalog.FindExact | touchy/t_lib/filechooser.py:83-87 | the first search loop with its break computes `FirstExact` |
| FileCatalog.FindBasename | touchy/t_lib/filechooser.py:89-94 | the second search loop computes `FirstBasename` |
| FileCatalog.UpOffset | touchy/t_lib/filechooser.py:106-109 | one page back, floored at 0 |
| FileCatalog.DownOffset | touchy/t_lib/filechooser.py:112-116 | one page forward; past the end, the last `numlabels` entries or 0; the offset stays non-negative and below the length of a non-empty list |
| FileCatalog.DownExample | touchy/t_lib/filechooser.py:112-116 | with 4 files and 2 labels, down goes to offset 2 and stays there |
| FileCatalog.DownNotPageAligned | touchy/t_lib/filechooser.py:112-116 | with 15 files and 11 labels, down from 11 gives 4, which is not a page boundary |
| FileCatalog.PageStart | touchy/t_lib/filechooser.py:99-101 | the offset select_and_show scrolls to is the matched index rounded down to a multiple of the label count, so its page contains the index |
| FileCatalog.FileChooser.constructor | touchy/t_lib/filechooser.py:21-36 | offset 0, no selection, no commands, and the files of the first reload |
| FileCatalog.FileChooser.Highlighted | touchy/t_lib/filechooser.py:50-55 | with no selection no label is highlighted; a highlighted label is at position `selected - fileoffset` on the page |
| FileCatalog.FileChooser.Reload | touchy/t_lib/filechooser.py:119-161 | files become the catalog and the selection is cleared; the offset is untouched |
| FileCatalog.FileChooser.Select | touchy/t_lib/filechooser.py:64-78 | for index `fileoffset + n`: past the end or at the separator it returns "" and changes nothing; otherwise it selects the index, sends MDI mode, program_open and readfile, and returns the path |
| FileCatalog.FileChooser.SelectAndShow | touchy/t_lib/filechooser.py:80-104 | reloads; the selection is the two-phase lookup; when found, the offset is its page start, the selected label is highlighted, and the listing reads `fn`; otherwise the offset and the commands are unchanged |
| FileCatalog.FileChooser.Up | touchy/t_lib/filechooser.py:106-110 | `fileoffset` becomes `UpOffset` of the old offset |
| FileCatalog.FileChooser.Down | touchy/t_lib/filechooser.py:112-117 | `fileoffset` becomes `DownOffset` of the old offset and stays below the length of a non-empty list |
| Manulathe.ScrollFactor | touchy/touchy_manulathe.py:821 | with `wheelinc` fixed at 0 (line 112), one wheel count scrolls 100 listing lines |
| Manulathe.Pow10 | touchy/touchy_manulathe.py:821 | powers of ten are positive and, from exponent 1 on, multiples of 10 |
| Manulathe.Reconcile | touchy/touchy_manulathe.py:778-792 | the mode afterwards is legal (scrolling only on tab 3; no fo/so in manual; no rpm in auto); a legal mode is kept; fo, so and off-tab scrolling become mv in manual; rpm and off-tab scrolling become fo in auto |
| Manulathe.ReconcileIdempotent | touchy/touchy_manulathe.py:778-792 | reconciling twice equals reconciling once |
| Manulathe.OverrideTrack | touchy/touchy_manulathe.py:696-722 | reset gives exactly 100; otherwise `old + d` clamped to `[0, max*100]`, with both clamp cases stated |
| Manulathe.RpmTrack | touchy/touchy_manulathe.py:724-735 | reset gives the default speed; otherwise `old + d*increment` clamped to `[0, max speed]`, and exactly 0 when the step reaches or passes 0 |
| Manulathe.VelocityTrack | touchy/touchy_manulathe.py:737-763 | reset gives the default velocity; otherwise `old + d/20` clamped to `[0, velocity limit]`, and exactly 0 when the step goes below 0 |
| Manulathe.FasterSpeed | touchy/touchy_manulathe.py:525-528 | one increment up only while below the maximum, so at most one increment past it |
| Manulathe.SlowerSpeed | touchy/touchy_manulathe.py:530-533 | one increment down only while above 0, so at most one increment below 0 |
| Manulathe.SpindleButtonsOvershoot | touchy/touchy_manulathe.py:525-533 | 950 rpm with step 100 and maximum 1000 goes to 1050; 50 goes to -50 |
| Manulathe.FindFrom | touchy/touchy_manulathe.py:890-891 | the first occurrence of a text at or after `k`, or none |
| Manulathe.Find | touchy/touchy_manulathe.py:890-891 | the first occurrence of a text, or none (Python `in` and `split`) |
| Manulathe.RemoveSpaces | touchy/touchy_manulathe.py:891 | `replace(" ", "")` keeps exactly the characters other than space |
| Manulathe.SecondField | touchy/touchy_manulathe.py:891 | `split(sep)[1]` fails exactly when `sep` does not occur; otherwise it is the slice of the text that starts right after the first `sep` and ends at the next occurrence of `sep` or at the end of the text, with no occurrence inside |
| Manulathe.OccursInSuffix | touchy/touchy_manulathe.py:891 | an occurrence in a suffix is an occurrence in the text, shifted by the suffix start |
| Manulathe.Trivkins | touchy/touchy_manulathe.py:888-893 | all nine axes when KINEMATICS is absent, empty or lacks "coordinates"; otherwise the upper-cased second field of the space-free entry split at "coordinates="; the IndexError case happens exactly when "coordinates" occurs but "coordinates=" does not after removing spaces |
| Manulathe.TrivkinsLeading | touchy/touchy_manulathe.py:888-893 | a space-free entry `coordinates=f` yields `f` upper-cased |
| Manulathe.TrivkinsExample | touchy/touchy_manulathe.py:888-893 | `coordinates=xz` yields `XZ` |
| Manulathe.MachineUnitsMm | touchy/touchy_manulathe.py:259-264 | TRAJ LINEAR_UNITS decides when present, else AXIS_X UNITS; the machine is metric iff that is "mm", "metric" or "1.0" |
| Manulathe.Conversion | touchy/touchy_manulathe.py:262-269 | nine factors: the rotary axes A, B, C get 1; the linear axes get 1/25.4 on a metric machine and 25.4 otherwise |
| Manulathe.Touchy.constructor | touchy/touchy_manulathe.py:112-121 | wheel fo, mask clear, tab 0, overrides 100, both velocities from the maxvel preference, the speed from its preference (line 145), the loaded program as current file (line 257); the trace is exactly continuous_jog_velocity, block delete and optional stop from their preferences, the open of the empty program, then max_velocity (lines 206, 288-300) |
| Manulathe.Touchy.RequestMode | touchy/touchy_manulathe.py:535-553 | with the mask set the mode is unchanged; with it clear the mode becomes the requested one |
| Manulathe.Touchy.SelectTab | touchy/touchy_manulathe.py:426-429 | the tab becomes the selected page |
| Manulathe.Touchy.SpindleFaster | touchy/touchy_manulathe.py:525-528 | the speed becomes `FasterSpeed`, and spindle_set_speed is sent iff the old speed was below the maximum |
| Manulathe.Touchy.SpindleSlower | touchy/touchy_manulathe.py:530-533 | the speed becomes `SlowerSpeed`, and spindle_set_speed is sent iff the old speed was above 0 |
| Manulathe.Touchy.FileSelect | touchy/touchy_manulathe.py:677-680 | the wheel switches to scrolling; the current file is what select returns (with its effects on the chooser); the start line is cleared |
| Manulathe.Touchy.PeriodicStatus | touchy/touchy_manulathe.py:682-694 | the mask is clear at the end and the current file is the machine's; when the file changed, the chooser reloads and selects by the two-phase lookup; when the file is found the offset goes to the start of its page and readfile is issued, otherwise offset and commands are unchanged; when the file did not change the chooser is untouched |
| Manulathe.Touchy.SyncFromStatus | touchy/touchy_manulathe.py:770-772 | fo and so become the machine's override ratios times 100, mv its maximum velocity |
| Manulathe.Touchy.ReconcileWheel | touchy/touchy_manulathe.py:778-792 | the mode becomes `Reconcile` of the old mode, tab and run mode |
| Manulathe.Touchy.EchoToggles | touchy/touchy_manulathe.py:794-806 | the toggled callbacks fired while the mask is set leave the mode unchanged |
| Manulathe.Touchy.WheelFoUpdate | touchy/touchy_manulathe.py:696-708 | fo becomes `OverrideTrack` with MAX_FEED_OVERRIDE; feed_override is sent iff reset or `d != 0` |
| Manulathe.Touchy.WheelSoUpdate | touchy/touchy_manulathe.py:710-722 | so becomes `OverrideTrack` with MAX_SPINDLE_OVERRIDE; spindle_override is sent iff reset or `d != 0` |
| Manulathe.Touchy.WheelRpmUpdate | touchy/touchy_manulathe.py:724-735 | the speed becomes `RpmTrack`; spindle_set_speed is sent iff the value changed |
| Manulathe.Touchy.WheelMvUpdate | touchy/touchy_manulathe.py:737-749 | mv becomes `VelocityTrack`; max_velocity is sent iff reset or `d != 0` |
| Manulathe.Touchy.WheelJogUpdate | touchy/touchy_manulathe.py:751-763 | the jog velocity becomes `VelocityTrack`; continuous_jog_velocity is sent iff reset or `d != 0` |
| Manulathe.Touchy.Dispatch | touchy/touchy_manulathe.py:808-823 | only the current mode's track moves (jog velocity in manual, mv in auto) and every other track is unchanged; the trace gains that track's command, or in scrolling mode listing.next with `100*d` iff `d != 0` |
| Manulathe.Touchy.PeriodicRadiobuttons | touchy/touchy_manulathe.py:765-823 | the mask is clear at the end; the mode is reconciled and legal; fo/so/mv are overwritten from the machine status before the delta is applied to the track of the final mode; for each final mode the trace gains exactly resetSpindel(0) and then the command of that track when it fires (fo, so, mv or jog velocity on reset or `d != 0`, the speed when it changed, the listing scroll by `100*d` when `d != 0`) |
| JogFeed.JoyValue | components/jog_feed_controller.c:76-87 | 0 within the dead band, bounds included; outside it the sign is kept and the magnitude is reduced by the dead band |
| JogFeed.FeedDirection | components/jog_feed_controller.c:118-128 | 1 iff positive, -1 iff negative and not positive, 0 iff neither |
| JogFeed.JogDelta | components/jog_feed_controller.c:89-116 | with the stick out of the dead band the stick value times the speed of the current range (fast or slow); with it at rest the wheel counts since `last_mpg` times the scale |
| JogFeed.FeedValue | components/jog_feed_controller.c:130-144 | 0 below the minimum jog scale, with no direction, or with the spindle still |
| JogFeed.FeedValueScaled | components/jog_feed_controller.c:140 | with the feed on, the counts are spindle travel times feed per revolution over the jog scale, in the held direction |
| JogFeed.Step | components/jog_feed_controller.c:146-164 | one update: rising-edge toggle; `last_btn_state` and `fast_mode_out` follow; velocity mode iff the stick is out of the dead band; `last_mpg` is the current count; `last_spindle_pos` advances except below the minimum jog scale; the first run starts from the current readings, its accumulator being 0 with the stick at rest and the stick step otherwise; later runs add jog delta plus feed |
| JogFeed.Run | components/jog_feed_controller.c:146-164 | after at least one update the instance is started and `last_mpg` is the last count |
| JogFeed.WheelStep | components/jog_feed_controller.c:103-113 | a wheel-only update adds the counts since `last_mpg` times the scale |
| JogFeed.JoystickStep | components/jog_feed_controller.c:93-101 | a stick-only update adds the stick value times the current speed, sets velocity mode, takes the wheel count as baseline, and gives the same accumulator whatever the wheel reads |
| JogFeed.WheelTravelTelescopes | components/jog_feed_controller.c:103-113 | over any run of wheel-only updates, the accumulator grows by the wheel's net travel times the scale |
| JogFeed.WheelTravelFromStart | components/jog_feed_controller.c:149-161 | from power-up only the wheel's travel since the first update is counted |
| JogFeed.FeedStep | components/jog_feed_controller.c:130-144 | a feed-only update advances the spindle baseline and adds the spindle travel times the feed factor |
| JogFeed.FeedTravelTelescopes | components/jog_feed_controller.c:130-161 | over any run of feed-only updates, the accumulator grows by the spindle's net travel times the feed factor |
| JogFeed.FirstStepIsBaseline | components/jog_feed_controller.c:149-154 | the first update with the stick at rest only records the baselines |
| JogFeed.FeedTravelFromStart | components/jog_feed_controller.c:149-161 | from power-up the first spindle reading is the feed's baseline |
| JogFeed.JogFeedController.constructor | components/jog_feed_controller.c:182-188 | dead band 0.05, speeds 100 and 5000, jog scale 0.0001, first run, fast mode, zero accumulator |
| JogFeed.JogFeedController.SetParameters | components/jog_feed_controller.c:45-48 | the four parameters take the given values |
| JogFeed.JogFeedController.ToggleJogSpeed | components/jog_feed_controller.c:63-74 | fast mode flips exactly on a rising edge; the last button state and the output follow |
| JogFeed.JogFeedController.GetJogAccumulatedValue | components/jog_feed_controller.c:89-116 | the delta is `JogDelta`; velocity mode iff the stick moved; `last_mpg` becomes the current count in both branches |
| JogFeed.JogFeedController.GetFeedValue | components/jog_feed_controller.c:130-144 | the result is `FeedValue`; the spindle baseline is kept below the minimum jog scale and advanced otherwise |
| JogFeed.JogFeedController.Update | components/jog_feed_controller.c:146-164 | the record becomes `Step` of the old record; `counts_out` is the accumulator truncated toward zero |
| ServoModbus.U16 | t3d/t3d_servo.c:134-136 | a settings value passed as a 16-bit register keeps its low 16 bits |
| ServoModbus.SettingsRequests | t3d/t3d_servo.c:133-137 | three register writes, none to the control or RPM register, each within 16 bits, carrying speed limit, acceleration and deceleration time unchanged when they fit |
| ServoModbus.Failure | t3d/t3d_servo_modbus.c:117-127 | attempts grow by exactly 1; the connection is marked down only when attempts were below the maximum; nothing else changes |
| ServoModbus.AfterCall | t3d/t3d_servo_modbus.c:3-50 | a negative library result is one failure; any other result changes nothing |
| ServoModbus.FailuresCount | t3d/t3d_servo_modbus.c:117-127 | n failures add n attempts, and leave the connection down when the first came with attempts left |
| ServoModbus.Init | t3d/t3d_servo_modbus.c:52-115 | already up: 0 with nothing changed; attempts past the limit: -1 with nothing changed; other failures add one attempt; success has the connection up, attempts 0, the alarm code read with its flag, and the alarm read then the three settings writes on the bus; a configured device is kept, otherwise the searched one is taken |
| ServoModbus.ConnectStep | t3d/t3d_servo_modbus.c:94-114 | a failed connect or alarm read is one failure; success as in `Init` |
| ServoModbus.Configured | t3d/t3d_servo_modbus.c:105-112 | after set-up the connection is up with attempts 0 and the alarm pins hold the code read, whatever the settings writes answered |
| ServoModbus.FourFailuresRefuse | t3d/t3d_servo_modbus.c:57-59 | from attempts 0, four failures make init_modbus refuse without touching the record or the bus, whatever the bus would answer |
| ServoModbus.ThreeFailuresStillTry | t3d/t3d_servo_modbus.c:57-59 | after three failures init_modbus still tries |
| ServoModbus.Servo.constructor | t3d/t3d_servo_hal.c:17-20 | last speed, last command, on status and attempts start at 0; the alarm code at 0 (line 79); settings 2500/1000/1000 (lines 82-84); not connected, no context, nothing sent |
| ServoModbus.Servo.HandleModbusFailure | t3d/t3d_servo_modbus.c:117-127 | the record becomes `Failure` of the old record |
| ServoModbus.Servo.Write06 | t3d/t3d_servo_modbus.c:36-50 | the write is put on the bus; the library result is returned unchanged; the record becomes `AfterCall` |
| ServoModbus.Servo.Read04 | t3d/t3d_servo_modbus.c:19-33 | as `Write06`, for an input-register read |
| ServoModbus.Servo.Read03 | t3d/t3d_servo_modbus.c:3-17 | as `Write06`, for a holding-register read |
| ServoModbus.Servo.UpdateServoSettings | t3d/t3d_servo.c:133-137 | three writes (maximum RPM, acceleration, deceleration), each handled as a call |
| ServoModbus.Servo.InitModbus | t3d/t3d_servo_modbus.c:52-115 | record, result, device and bus requests are those of `Init` |
| ServoModbus.Servo.Connect | t3d/t3d_servo_modbus.c:94-114 | record, result and bus requests are those of `ConnectStep` |
| ServoModbus.Servo.StoreAlarmAndConfigure | t3d/t3d_servo_modbus.c:105-112 | the record becomes `Configured`, after the three settings writes |
| ServoModbus.ModbusGlobals.constructor | t3d/t3d_servo.h:65-66 | no device and slave 1 |
| ServoModbus.ModbusGlobals.ReadParams | t3d/t3d_servo_modbus.c:146-180 | every argument buffer is restored; device and slave are those of applying the arguments after the program name in order |
| ServoModbus.ModbusGlobals.Apply | t3d/t3d_servo_modbus.c:156-176 | the settings become `ApplySetting` of the key and value |
| ServoModbus.ModbusGlobals.ReadArg | t3d/t3d_servo_modbus.c:148-179 | writing NUL over the `=` yields the key and value; the buffer is restored; the settings become `ApplyArg` of the argument |
| ServoModbus.ProgramArgs | t3d/t3d_servo_modbus.c:147 | the loop starts after the program name |
| ServoModbus.StrChr | t3d/t3d_servo_modbus.c:149 | strchr finds the first `c` of the C string, or reports none |
| ServoModbus.StrChrResult | t3d/t3d_servo_modbus.c:149 | where strchr's scan stops decides between the first occurrence and none |
| ServoModbus.CStringAt | t3d/t3d_servo_modbus.c:153-154 | the characters from `start` up to the first NUL |
| ServoModbus.CStringSuffix | t3d/t3d_servo_modbus.c:154 | the value (from after the `=`) is the rest of the argument |
| ServoModbus.CStringSplit | t3d/t3d_servo_modbus.c:152-153 | after the NUL write, the key is the argument up to the `=` |
| ServoModbus.CString | t3d/t3d_servo_modbus.c:148 | a C string is the characters before the first NUL |
| ServoModbus.IndexOf | t3d/t3d_servo_modbus.c:149 | the first index of `c`, or none when `c` does not occur |
| ServoModbus.StrToL | t3d/t3d_servo_modbus.c:163 | strtol base 10: no digits gives value 0 with the end at the start; the value lies within the range of long, pinned to an end of it when ERANGE is set |
| ServoModbus.StrToLOfNumeral | t3d/t3d_servo_modbus.c:163 | leading spaces, an optional sign and digits, followed by a non-digit or the end, convert to the signed value (range-checked) with the end after the last digit |
| ServoModbus.NumeralParts | t3d/t3d_servo_modbus.c:163 | on such an input the space, sign and digit scans stop at the boundaries of the three parts |
| ServoModbus.Ranged | t3d/t3d_servo_modbus.c:163-166 | an out-of-range value is pinned to LONG_MAX or LONG_MIN with ERANGE; others are exact |
| ServoModbus.SlaveFrom | t3d/t3d_servo_modbus.c:159-175 | an accepted slave lies in 0..255 and is the value of a complete, non-empty conversion without ERANGE |
| ServoModbus.SlaveFromNumeral | t3d/t3d_servo_modbus.c:159-175 | a whole value of spaces, optional sign and digits is accepted iff its value is in 0..255, and then as that value |
| ServoModbus.SlaveFromOnlyNumerals | t3d/t3d_servo_modbus.c:159-175 | conversely, an accepted value is exactly spaces, an optional sign and digits, and the slave is their signed value |
| ServoModbus.StrToLOfDigits | t3d/t3d_servo_modbus.c:163 | a plain digit string is converted completely to its value |
| ServoModbus.SlaveRoundTrip | t3d/t3d_servo_modbus.c:159-175 | every slave 0..255 written in decimal is accepted as that number |
| ServoModbus.SlaveRejectsTrailing | t3d/t3d_servo_modbus.c:166-168 | a number followed by a non-digit is rejected |
| ServoModbus.ApplyArg | t3d/t3d_servo_modbus.c:148-179 | an argument without `=` changes nothing |
| ServoModbus.ApplyArgs | t3d/t3d_servo_modbus.c:146-147 | folding the arguments leaves the slave unchanged or in 0..255, and leaves the device unchanged without a `device=` argument |
| ServoModbus.ApplyArgsStep | t3d/t3d_servo_modbus.c:147-179 | one more pass of the loop applies one more argument to the settings so far |
| ServoModbus.ApplySetting | t3d/t3d_servo_modbus.c:156-176 | `device` sets the device; `slave` sets the slave only from a valid value; any other key changes nothing |
| ServoModbus.LastDeviceWins | t3d/t3d_servo_modbus.c:147-158 | the last `device=` argument decides the device |
| ServoModbus.LastSlaveWins | t3d/t3d_servo_modbus.c:147-176 | the last `slave=` argument with a valid value decides the slave number |
| ServoModbus.NoSlaveArgKeepsSlave | t3d/t3d_servo_modbus.c:147-176 | without a valid `slave=` argument the slave number keeps its initial value |
| ServoModbus.ApplyArgKeepsSlave | t3d/t3d_servo_modbus.c:151-176 | any other argument leaves the slave number alone |
| ServoModbus.ApplySlaveArg | t3d/t3d_servo_modbus.c:159-170 | a valid `slave=` argument sets the slave number to its value |
| ServoModbus.ApplyDeviceArg | t3d/t3d_servo_modbus.c:156-158 | a `device=` argument sets the device to what follows the `=` |
| ServoModbus.ApplyArgKeepsDevice | t3d/t3d_servo_modbus.c:151-176 | any other argument leaves the device alone |
| ServoLoop.MotorCommand | t3d/t3d_servo.c:92-113 | off when not on; with on, forward iff forward and not reverse, reverse iff reverse and not forward, otherwise stop on hold, else off |
| ServoLoop.MotorCommandDirection | t3d/t3d_servo.c:92-113 | the direction read back from the command, and stop exactly for on, hold and no single direction |
| ServoLoop.SendCommand | t3d/t3d_servo.c:115-122 | an unchanged command sends nothing; a changed one is written, remembered on success, and counted as a failure otherwise |
| ServoLoop.SpeedRegister | t3d/t3d_servo.c:84 | the RPM register gets the speed truncated toward zero, within 16 bits |
| ServoLoop.UpdateSpeedStep | t3d/t3d_servo.c:81-90 | an unchanged speed sends nothing; a changed one is written, remembered on success, and counted as a failure otherwise |
| ServoLoop.CheckOn | t3d/t3d_servo.c:66-74 | records the on pin; attempts reset to 0 exactly on a transition to on |
| ServoLoop.ResetAlarmStep | t3d/t3d_servo.c:124-130 | the reset value is written on every pass with the reset pin high |
| ServoLoop.ReadAlarmStep | t3d/t3d_servo.c:145-154 | the alarm register is read; a successful read with a new code updates code and flag; a failed read is a failure |
| ServoLoop.ServoWriteStep | t3d/t3d_servo.c:76-79 | the writes keep the record consistent and leave the on status, context and read time alone |
| ServoLoop.ConnectedStep | t3d/t3d_servo.c:53-60 | the writes and the timed read keep the record consistent |
| ServoLoop.Iteration | t3d/t3d_servo.c:30-64 | a disabled pass does nothing unless connected; then it writes off, marks the connection down and resets attempts |
| ServoLoop.EnabledStep | t3d/t3d_servo.c:45-60 | an enabled pass keeps the record consistent and records the on pin |
| ServoLoop.NoMotionWithoutConnection | t3d/t3d_servo.c:45-51 | a pass whose connection attempt fails sends no control or speed write |
| ServoLoop.ConnectedOrder | t3d/t3d_servo.c:53-60 | connected: control word, then speed (each only if changed), then the alarm read exactly when a read cycle has passed on the 64-bit clock, which then becomes the read time |
| ServoLoop.ReadDue | t3d/t3d_servo.c:57 | on the unsigned 64-bit clock a read is due when a read cycle has passed, also across a wrap-around of the clock |
| ServoLoop.WritesDelivered | t3d/t3d_servo.c:76-122 | successful writes leave the record holding the pins' command and speed |
| ServoLoop.NothingToSend | t3d/t3d_servo.c:53-60 | with command and speed delivered and no read due, a connected pass is silent |
| ServoLoop.SteadyStateQuiet | t3d/t3d_servo.c:30-64 | once a pass has delivered everything, the next pass with the same pins sends nothing |
| ServoLoop.DisableKeepsCommand | t3d/t3d_servo.c:33-43 | disabling writes off but keeps the last accepted command |
| ServoLoop.CheckOnStatus | t3d/t3d_servo.c:66-74 | the record becomes `CheckOn` |
| ServoLoop.SendMotorCommand | t3d/t3d_servo.c:115-122 | record and bus follow `SendCommand` |
| ServoLoop.UpdateMotorStatus | t3d/t3d_servo.c:92-113 | record and bus follow `SendCommand` of `MotorCommand` of the pins |
| ServoLoop.UpdateSpeed | t3d/t3d_servo.c:81-90 | record and bus follow `UpdateSpeedStep` |
| ServoLoop.ServoWrite | t3d/t3d_servo.c:76-79 | record and bus follow `ServoWriteStep` |
| ServoLoop.WatchResetAlertSignal | t3d/t3d_servo.c:124-130 | record and bus follow `ResetAlarmStep` |
| ServoLoop.ReadAlarm | t3d/t3d_servo.c:145-154 | record and bus follow `ReadAlarmStep` |
| ServoLoop.ServoRead | t3d/t3d_servo.c:141-143 | record and bus follow `ReadAlarmStep` |
| ServoLoop.ConnectedPass | t3d/t3d_servo.c:53-60 | record and bus follow `ConnectedStep` |
| ServoLoop.PrepareConnection | t3d/t3d_servo.c:45-48 | the reset request, the on check and the connection attempt, in that order, as `Init` after `CheckOn` after `ResetAlarmStep` |
| ServoLoop.MainLoopPass | t3d/t3d_servo.c:30-64 | record, device and bus follow `Iteration` |
| ServoLoop.EnabledPass | t3d/t3d_servo.c:45-60 | record, device and bus follow `EnabledStep` |
| ServoLoop.HandleSigint | t3d/t3d_servo.c:159-167 | with a context held, off is written and handled as a call; otherwise nothing happens |

## Left out

- The GTK screen: widgets, labels, fonts, themes, the cursor, full screen,
  dynamic tabs, the X client messages of `tabselect`, and the colouring done
  by `populate` beyond the highlight rule (`FileChooser.Highlighted`).
- Preferences and the INI file are read once and enter as values
  (`Manulathe.Config`, the preference arguments of the constructor). The
  temporary empty program the constructor opens is the `OpenEmptyProgram`
  command; its file and name are not modelled.
- The modules `emc_interface`, `hal_interface` and `listing` are not part of
  this model. The calls into them that command the machine, the HAL side or
  the listing become entries of `trace` or `commands`. `hal.wheel()` and
  `hal.wheelreset` are the `d` and `reset` parameters.
- Calls into those modules that are not traced:
  - in `periodic_status`: `linuxcnc.mask()` and `unmask()`,
    `status.periodic()` and `hal.periodic(self.tab == 1)`
    (touchy/touchy_manulathe.py:683, 685, 692-693);
  - in the constructor: `status.set_machine_units` and the display choices
    `dro_mm`/`dro_inch` and `dro_actual`/`dro_commanded`
    (touchy/touchy_manulathe.py:271-286).
- How the screen builds its file chooser is not modelled. The chooser is
  passed in already built. The call in touchy/touchy_manulathe.py:215 passes
  five arguments where the constructor takes six.
- FileCatalog.FileChooser.constructor: requires `numlabels > 0`. The source
  accepts an empty label list and fails only at the division
  `idx // numlabels` in `select_and_show`; the model leaves that crash out.
- `select()` reads the label number from the eventbox's name. The model
  takes the number `n` directly, so the name parsing and its early return
  are left out.
- Filesystem access: listings, `isfile`, `isdir`, the user name and the home
  directory are parameters. An `OSError` becomes a missing listing.
- File names are compared code point by code point. Locale and Unicode case
  folding beyond ASCII are not modelled.
- Floating point: all analogue quantities are exact `real`s, so IEEE rounding
  is not modelled. This includes the `float` joystick value and `last_speed`.
- ServoLoop.WritesDelivered, ServoLoop.NothingToSend, ServoLoop.SteadyStateQuiet:
  these hold in the C driver only for speeds that a `float` holds exactly.
  `update_speed` stores the `double` speed pin into the `float` `last_speed`
  (t3d/t3d_servo.c:87) and compares the two as doubles (t3d/t3d_servo.c:83).
  For a speed such as 333.3 they never compare equal, so the RPM register is
  written again on every pass.
- JogFeed.JogFeedController.Update: `counts_out` is the accumulator truncated
  toward zero without the wrap-around of the 32-bit pin, which is beyond what
  the C conversion defines.
- JogFeed.JogDelta: the difference of two `s32` wheel counts is exact, without
  32-bit overflow.
- ServoLoop.SpeedRegister: speeds outside 0..65535, where the C conversion is
  undefined, are taken modulo 2^16.
- ServoModbus.Servo.constructor: `modbus_inited`, `alarm_flag`, `mb_ctx` and
  `last_modbus_read_time` are not set by the initialisation code. The model
  starts them at false, false, none and 0.
- libmodbus itself, `modbus_close`/`modbus_free`, the socket check, logs on
  stderr, and the delays (`usleep`, including the 700 ms after a failure).
  Each library call becomes a given result, with the request it issues
  recorded in `sent`.
- `find_serial_device` (glob over `/dev/serial/by-id`) is the `found` field
  of `InitReplies`.
- ServoModbus.Init: the slave number that `readParams` parses is passed to
  `modbus_set_slave` (t3d/t3d_servo_modbus.c:94). That call sends nothing on
  the bus, so it is not a request in `sent` and the slave does not enter
  `Init`.
- `main`, the HAL pin registration, signal installation, `hal_exit`/`exit`,
  and the endless `while (1)`. The model covers one pass (`MainLoopPass`),
  and `HandleSigint` covers only what the handler sends to the drive.
- The clock `rtapi_get_time()` is the `now` parameter. The unsigned
  subtraction is modelled modulo 2^64.
- `halcmd setp` on the jog/feed parameters is modelled as `SetParameters`.
  `rtapi_app_main`'s instance naming and pin creation are left out.
- additional_files/ffpv_cl.c, gremlin/gremlin_touchy.py and
  touchy/QuitDialog.py are not part of this model.
