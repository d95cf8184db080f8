# tuxedo-rs: suspend coordination and profile stores, in Dafny

This project models two parts of tuxedo-rs, the control daemon (`tailord`) for
TUXEDO laptops and its client library.

1. **Suspend/resume coordination** (`suspend.dfy`, module `Suspend`).
   - The producer, `wait_for_suspend`, subscribes to logind's `PrepareForSleep`
     signal. Each attempt is one `try_wait_for_suspend`, which forwards every
     boolean of the signal to a broadcast channel.
   - The producer makes at most three attempts, and exactly three when each
     attempt returns. It sleeps ten seconds after each failed attempt only,
     the third included, then stops.
   - The consumer, `process_suspend` with `wait_for_wake_up`, reads the first
     message. `false` returns at once. `true` waits for the next `false`,
     skipping further `true`s and receive errors. A receive error on the first
     read parks the caller forever.
   - Everything asynchronous is plain data in the model:
     - what the system bus does in one attempt is an `Attempt` value;
     - the sleeps are a counter;
     - the broadcast sender is a `Sender` object whose `sent` and `delivered`
       sequences are updated by `Send`;
     - what a broadcast receiver yields is a given sequence of `Received`
       values;
     - the consumer's result is `Returned(consumed) | Parked | NeedMoreInput`.
2. **Named-profile stores with the rename cascade** (`profiles.dfy`, module
   `Profiles`).
   - The daemon keeps global, fan and keyboard profiles by name. A global
     profile names the fan and keyboard profiles it uses.
   - Renaming a fan or keyboard profile rewrites those names in every global
     profile.
   - The daemon's store code is not part of this model. The class `Tailor`
     holds the three stores and the active name as maps and a string. Its
     methods carry the contracts that the client's integration tests rely on.
   - The names of add, get, list, remove, rename and the active-name calls, and
     the rename result (the new list of names), follow the D-Bus interfaces
     `com.tux.Tailor.Profiles` and `com.tux.Tailor.Keyboard`. Neither interface
     declares a copy call. The copy operations come from the tests alone.
   - `profile_tests.dfy` (module `ProfileTests`) restates `test_profiles`,
     `test_fan` and `test_keyboard` step by step. Every `unwrap()` and
     `unwrap_err()` of a get, rename, copy or remove call, and every `assert!`
     and `assert_eq!`, becomes a verified `assert` against those contracts.
     Add, list and the active-name getter cannot fail in the model, so their
     `unwrap()` has no counterpart; nor does `TailorConnection::new`.
   - Two behaviours are modelling choices that the tests do not exercise.
     `set_active_profile_name` fails on a name that is not a global profile.
     Renaming the active global profile makes the active name follow it; no
     other store operation changes the active name.
   - Fan and keyboard profile data are type parameters. So the scenarios are
     proved for every payload, not only the points and colours the tests use.

## Model

| member | source | states |
|---|---|---|
| Suspend.WaitForSuspend | tailord/src/suspend.rs:17-28 | when each attempt returns, exactly three attempts are made whatever each returns, attempts past the third are never looked at, the number of ten-second sleeps is the number of failed attempts (so at most three) and the total delay is ten seconds per sleep, and the sender receives the values of the three attempts one after another |
| Suspend.NoFailuresIffAllFinished | tailord/src/suspend.rs:19-26 | no sleep happens exactly when every attempt ended without error; an attempt whose stream simply ended still counts as one of the three |
| Suspend.AllSetupsFailed | tailord/src/suspend.rs:19-27 | when every connection or subscription fails, nothing is forwarded and the producer sleeps after each of the three attempts, then stops |
| Suspend.TryWaitForSuspend | tailord/src/suspend.rs:30-51 | one attempt: the result is an error exactly for a failed setup or an undecodable message; every decoded value goes to `send` in arrival order, whether or not subscribers exist; subscribers get those values exactly when there are any |
| Suspend.Sender.Send | tailord/src/suspend.rs:45-47 | `send` fails exactly when there are no subscribers; the value is offered either way and delivered only on success |
| Suspend.ForwardedInOrder | tailord/src/suspend.rs:35-45 | the i-th forwarded value is the argument of the i-th message, unchanged; forwarding stops early only at a message whose arguments do not decode, and nothing after it is forwarded |
| Suspend.FinishedIffEverythingForwarded | tailord/src/suspend.rs:30-51 | an attempt ends without error exactly when setup succeeded and every message of the stream was forwarded |
| Suspend.WaitForWakeUp | tailord/src/suspend.rs:71-88 | consuming from a position on gives the wake-up outcome of that suffix |
| Suspend.ProcessSuspend | tailord/src/suspend.rs:53-69 | the outcome of a fresh receiver is the suspend outcome of its results |
| Suspend.WakeOutcomeReturnsAt | tailord/src/suspend.rs:73-87 | the wake-up loop never parks, and it returns after consuming k results exactly when the k-th is the first `Ok(false)`; `Ok(true)` and receive errors before it are consumed without returning |
| Suspend.WakeOutcomeBlocks | tailord/src/suspend.rs:73-87 | the wake-up loop stays blocked exactly when no `Ok(false)` arrives |
| Suspend.SuspendReturnsAt | tailord/src/suspend.rs:54-62 | `process_suspend` returns after k results exactly when the first is `Ok(false)` and k is one, or the first is `Ok(true)` and the k-th is the first later `Ok(false)` |
| Suspend.SuspendParks | tailord/src/suspend.rs:64-67 | `process_suspend` parks exactly when its first receive fails |
| Suspend.ParkedForever | tailord/src/suspend.rs:64-67 | once parked, no later input makes `process_suspend` return |
| Suspend.ReturnReadsOnlyConsumed | tailord/src/suspend.rs:53-88 | when it returns after k results, it reads no result past the k-th: the consumed prefix alone and any continuation give the same outcome |
| Suspend.BlockedWakesOnFalse | tailord/src/suspend.rs:71-88 | a consumer still blocked after `Ok(true)` returns on the next `Ok(false)`, consuming it |
| Suspend.ClosedWhileSuspendedNeverReturns | tailord/src/suspend.rs:83-86 | suspended when the channel reports `Closed` on every later receive, the consumer never returns |
| Profiles.ListNames | tailor_client/src/dbus/profiles.rs:13 | a listing holds every name of the store, each once, and nothing else |
| Profiles.Tailor.AddGlobalProfile | tailor_client/tests/tests.rs:16-25 | adding inserts or overwrites the named global profile and never fails; nothing else changes |
| Profiles.Tailor.GetGlobalProfile | tailor_client/tests/tests.rs:26-30 | getting succeeds exactly for a stored name and returns the stored profile |
| Profiles.Tailor.ListGlobalProfiles | tailor_client/tests/tests.rs:31-36 | the listing enumerates exactly the stored names |
| Profiles.Tailor.RemoveGlobalProfile | tailor_client/tests/tests.rs:90-107 | removing fails on a missing name and succeeds on a present, inactive one, which is then gone; a failed removal changes nothing; the active name never changes |
| Profiles.Tailor.RenameGlobalProfile | tailor_client/tests/tests.rs:68-89 | renaming fails on a missing source and succeeds onto a free name, moving the profile and returning the new listing; the active name follows a successful rename of the active profile and is otherwise unchanged; a failed rename changes nothing |
| Profiles.Tailor.CopyGlobalProfile | tailor_client/tests/tests.rs:93-97 | copying an existing profile to a free name succeeds and stores the same profile under both names |
| Profiles.Tailor.GetActiveGlobalProfileName | tailor_client/tests/tests.rs:13 | the active profile's name is returned |
| Profiles.Tailor.SetActiveProfileName | tailor_client/src/dbus/profiles.rs:19 | only an existing global profile can become the active one; a failed call changes nothing |
| Profiles.Tailor.AddFanProfile | tailor_client/tests/tests.rs:121-124 | adding inserts or overwrites the named fan profile and never fails; the global profiles are untouched |
| Profiles.Tailor.GetFanProfile | tailor_client/tests/tests.rs:125-126 | getting succeeds exactly for a stored name and returns the data added |
| Profiles.Tailor.ListFanProfiles | tailor_client/tests/tests.rs:127-132 | the listing enumerates exactly the stored fan profile names |
| Profiles.Tailor.RemoveFanProfile | tailor_client/tests/tests.rs:156-173 | removing fails on a missing name and succeeds on a present, unreferenced one, which is then gone |
| Profiles.Tailor.RenameFanProfile | tailor_client/tests/tests.rs:38-50 | renaming a fan profile moves it and, in the same step, rewrites every global profile's fan reference to it; it fails on a missing source and succeeds onto a free name |
| Profiles.Tailor.CopyFanProfile | tailor_client/tests/tests.rs:159-163 | copying an existing fan profile to a free name succeeds and stores the same data under both names |
| Profiles.Tailor.AddKeyboardProfile | tailor_client/tests/tests.rs:200-209 | adding inserts or overwrites the named keyboard profile and never fails; the global profiles are untouched |
| Profiles.Tailor.GetKeyboardProfile | tailor_client/tests/tests.rs:210-214 | getting succeeds exactly for a stored name and returns the data added |
| Profiles.Tailor.ListKeyboardProfiles | tailor_client/tests/tests.rs:215-220 | the listing enumerates exactly the stored keyboard profile names |
| Profiles.Tailor.RemoveKeyboardProfile | tailor_client/tests/tests.rs:244-264 | removing fails on a missing name and succeeds on a present, unreferenced one, which is then gone |
| Profiles.Tailor.RenameKeyboardProfile | tailor_client/tests/tests.rs:43-50 | renaming a keyboard profile moves it and rewrites every global profile's keyboard reference to it; it fails on a missing source and succeeds onto a free name |
| Profiles.Tailor.CopyKeyboardProfile | tailor_client/tests/tests.rs:247-251 | copying an existing keyboard profile to a free name succeeds and stores the same data under both names |
| Profiles.SameReferencesSameProfile | tailor_client/tests/tests.rs:62-66 | a global profile is determined by its fan and keyboard names |
| Profiles.RenameBackRestores | tailor_client/tests/tests.rs:52-66 | renaming a profile to a free name and back restores the store |
| Profiles.RetargetBackRestores | tailor_client/tests/tests.rs:52-66 | the cascade of renaming to a name nobody refers to and back restores every global profile |
| Profiles.CascadeKeepsResolution | tailor_client/tests/tests.rs:38-50 | after a rename with its cascade, each global profile still resolves to the same fan or keyboard data, under the new name |
| Profiles.CascadeKeepsResolvable | tailor_client/tests/tests.rs:38-50 | if every global profile's references resolve before a rename, they all resolve after it |
| Profiles.CascadeLeavesNoOldReference | tailor_client/tests/tests.rs:38-50 | after the cascade no global profile refers to the old name |
| Profiles.UnreferencedCascadeChangesNothing | tailor_client/tests/tests.rs:134-138 | renaming a profile no global profile refers to leaves the global profiles unchanged |
| ProfileTests.RenameReferencesAndBack | tailor_client/tests/tests.rs:38-66 | renaming the active profile's fan and keyboard profiles rewrites the copied global profile; renaming them back restores it exactly |
| ProfileTests.RenameCopyRemoveGlobal | tailor_client/tests/tests.rs:68-107 | renaming the copied global profile to a free name succeeds, the listing then holds the new name and not the old one, repeating the rename and removing the old name fail, copying back to the old name succeeds, both names can then be removed, and a second removal fails |
| ProfileTests.TestProfiles | tailor_client/tests/tests.rs:4-108 | every step of `test_profiles` succeeds or fails as the test expects, starting from any stores that hold the active profile and its references and lack the test names |
| ProfileTests.TestFan | tailor_client/tests/tests.rs:110-174 | every step of `test_fan` succeeds or fails as the test expects, for every fan profile payload, starting from any stores in which `__test_fan_profile2` is not a fan profile and no global profile refers to `__test_fan_profile` or `__test_fan_profile2` |
| ProfileTests.TestKeyboard | tailor_client/tests/tests.rs:176-265 | every step of `test_keyboard` succeeds or fails as the test expects, for every keyboard profile payload, starting from any stores in which `__test_keyboard_profile2` is not a keyboard profile and no global profile refers to `__test_keyboard_profile` or `__test_keyboard_profile2` |

## Left out

- Rust's `async` machinery, the zbus connection and proxy setup, and the
  `tracing` log lines. A failed connection, proxy or subscription is the single
  `SetupFailed` outcome.
- The ten-second sleeps: `tokio::time::sleep` is not executed. The model
  counts the sleeps and adds up their length, `RetryDelaySecs`, as the total
  delay.
- The internals of tokio's broadcast channel: buffer size, lag and drop
  policy. The sender is reduced to a subscriber count, fixed for the run, and
  the values it was given and delivered. Subscribers joining or leaving
  mid-run are not modelled. Receive results are an input sequence in which `Lagged`
  and `Closed` stand for the two `RecvError` kinds.
- Real non-termination: `pending()` in `process_suspend` is the outcome
  `Parked`. A wait still blocked at the end of the input is `NeedMoreInput`.
- Suspend.WaitForSuspend: a signal stream that never ends keeps the producer
  in that attempt for good; this is its normal running state. Every
  `Subscribed` attempt of the model ends, so the model covers only producers
  whose attempts all return.
- Suspend.WaitForSuspend: the sender is dropped when the producer stops, which
  closes the channel. The model does not capture this.
- Suspend.ClosedWhileSuspendedNeverReturns: `wait_for_wake_up` also skips
  `Closed`. So a consumer suspended when the producer stops spins on receive
  errors instead of returning. This is what the code does, and the lemma states
  it.
- The daemon's own store code (files, directories, loading and any caching)
  is not part of this model. Nor are the `reload` call, persistence of the
  active name, or hardware side effects (`override_color` and the fan speed
  override).
- The JSON encoding of profiles in `tailor_client/src/lib.rs` (`serde_json`).
  Encoding and then decoding is taken to give back the value.
- The payloads of fan and keyboard profiles (`FanProfilePoint`, `ColorProfile`)
  are opaque type parameters. A global profile keeps only its fan and keyboard
  names, the two fields the tests look at.
- Error kinds: every failure is the single `Err`. The model does not say
  whether a failed rename failed because the source is missing or because the
  target exists.
- The GUI (`tailor_gui/src/app.rs`): connection state, toasts, window
  settings.
- Concurrency: several clients calling the daemon at once.
- The D-Bus `fdo::Result` error that add, list and the active-name getter can
  return is not modelled. Those calls always succeed here. Opening the
  connection (`TailorConnection::new`) is not modelled either.
- Profiles.Tailor.RemoveGlobalProfile: whether removing the active global
  profile succeeds is left open, because the tests never do it.
- Profiles.Tailor.RemoveFanProfile: whether removing a fan profile that a
  global profile refers to succeeds is left open. Global profiles are never
  changed, so a successful removal leaves the reference dangling.
- Profiles.Tailor.RemoveKeyboardProfile: whether removing a keyboard profile
  that a global profile refers to succeeds is left open. Global profiles are
  never changed, so a successful removal leaves the reference dangling.
- Profiles.Tailor.RenameGlobalProfile: renaming onto a taken name is left
  open. It may fail or overwrite.
- Profiles.Tailor.RenameFanProfile: renaming onto a taken name is left open.
- Profiles.Tailor.RenameKeyboardProfile: renaming onto a taken name is left
  open.
- Profiles.Tailor.CopyGlobalProfile: copying onto a taken name is left open.
- Profiles.Tailor.CopyFanProfile: copying onto a taken name is left open.
- Profiles.Tailor.CopyKeyboardProfile: copying onto a taken name is left open.
- Profiles.Tailor.CopyGlobalProfile, Profiles.Tailor.CopyFanProfile and
  Profiles.Tailor.CopyKeyboardProfile are modelled as one store step. Whether
  the daemon offers copy as a call of its own or a client does a get followed
  by an add is not modelled; both meet the same contract.
- Profiles.ListNames: the contracts say nothing about the order of a listing,
  because the tests only check membership.
