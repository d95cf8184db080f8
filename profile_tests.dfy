/**
 * The client's integration tests, step by step, against the contracts of the
 * profile stores. Every `unwrap()` of a get, rename, copy or remove call is an
 * `assert r.Ok?`, every `unwrap_err()` an `assert r.Err?`, and every
 * `assert!`/`assert_eq!` an `assert`. Add, list and the active-name getter
 * cannot fail in the model, so their `unwrap()` has no counterpart. The
 * `requires` clauses are what the tests take for granted about the daemon's
 * stores when they start. The profile data is arbitrary: the
 * scenarios hold for every fan and keyboard payload.
 */
module ProfileTests {
  import opened Profiles

  const GlobalName := "__test_global_profile"
  const SecondGlobalName := "__test_global_profile2"
  const FanRename := "__test_fan_rename"
  const KeyboardRename := "__test_keyboard_rename"
  const FanName := "__test_fan_profile"
  const SecondFanName := "__test_fan_profile2"
  const KeyboardName := "__test_keyboard_profile"
  const SecondKeyboardName := "__test_keyboard_profile2"

  /** `test_profiles`: global profiles, and the cascade of fan and keyboard renames. */
  method TestProfiles<F, K>(t: Tailor<F, K>)
    requires t.active in t.globals && t.active != GlobalName
    requires t.globals[t.active].fan in t.fans && t.globals[t.active].keyboard in t.keyboards
    requires FanRename !in t.fans && KeyboardRename !in t.keyboards
    requires SecondGlobalName !in t.globals
    modifies t
  {
    var activeName := t.GetActiveGlobalProfileName();
    var got := t.GetGlobalProfile(activeName);
    assert got.Ok?;
    var activeProfile := got.value;

    // Add, then overwrite with the same data
    t.AddGlobalProfile(GlobalName, activeProfile);
    t.AddGlobalProfile(GlobalName, activeProfile);
    got := t.GetGlobalProfile(GlobalName);
    assert got == Ok(activeProfile);
    var names := t.ListGlobalProfiles();
    assert GlobalName in names;

    RenameReferencesAndBack(t, activeProfile);
    RenameCopyRemoveGlobal(t);
  }

  /**
   * The middle of `test_profiles`: renaming the fan and keyboard profiles a
   * global profile uses rewrites it, and renaming them back restores it.
   */
  method RenameReferencesAndBack<F, K>(t: Tailor<F, K>, activeProfile: ProfileInfo)
    requires GlobalName in t.globals && t.globals[GlobalName] == activeProfile
    requires activeProfile.fan in t.fans && activeProfile.keyboard in t.keyboards
    requires FanRename !in t.fans && KeyboardRename !in t.keyboards
    modifies t
    ensures t.globals.Keys == old(t.globals.Keys) && t.globals[GlobalName] == activeProfile
    ensures t.active == old(t.active)
  {
    // Renaming the fan and keyboard profiles rewrites the global profile
    var renamed := t.RenameFanProfile(activeProfile.fan, FanRename);
    assert renamed.Ok?;
    assert Reference(t.globals[GlobalName], Fan) == FanRename;
    assert Reference(t.globals[GlobalName], Keyboard) == activeProfile.keyboard;
    renamed := t.RenameKeyboardProfile(activeProfile.keyboard, KeyboardRename);
    assert renamed.Ok?;
    var got := t.GetGlobalProfile(GlobalName);
    assert got.Ok?;
    assert got.value.fan == FanRename;
    assert got.value.keyboard == KeyboardRename;

    // Renaming back restores the global profile
    renamed := t.RenameFanProfile(FanRename, activeProfile.fan);
    assert renamed.Ok?;
    assert Reference(t.globals[GlobalName], Fan) == activeProfile.fan;
    assert Reference(t.globals[GlobalName], Keyboard) == KeyboardRename;
    renamed := t.RenameKeyboardProfile(KeyboardRename, activeProfile.keyboard);
    assert renamed.Ok?;
    got := t.GetGlobalProfile(GlobalName);
    assert got.Ok?;
    SameReferencesSameProfile(got.value, activeProfile);
    assert got == Ok(activeProfile);
  }

  /** The second half of `test_profiles`: rename, copy and remove a global profile. */
  method RenameCopyRemoveGlobal<F, K>(t: Tailor<F, K>)
    requires GlobalName in t.globals && SecondGlobalName !in t.globals
    requires t.active != GlobalName && t.active != SecondGlobalName
    modifies t
  {
    // Rename the global profile
    var renamed := t.RenameGlobalProfile(GlobalName, SecondGlobalName);
    assert renamed.Ok?;
    var names := t.ListGlobalProfiles();
    assert SecondGlobalName in names;
    names := t.ListGlobalProfiles();
    assert GlobalName !in names;
    renamed := t.RenameGlobalProfile(GlobalName, SecondGlobalName);
    assert renamed.Err?;
    var removed := t.RemoveGlobalProfile(GlobalName);
    assert removed.Err?;

    // Copy back to the old name, then remove both
    var copied := t.CopyGlobalProfile(SecondGlobalName, GlobalName);
    assert copied.Ok?;
    removed := t.RemoveGlobalProfile(GlobalName);
    assert removed.Ok?;
    removed := t.RemoveGlobalProfile(SecondGlobalName);
    assert removed.Ok?;
    removed := t.RemoveGlobalProfile(SecondGlobalName);
    assert removed.Err?;
  }

  /** `test_fan`: the fan profile store. */
  method TestFan<F, K>(t: Tailor<F, K>, profile: F)
    requires SecondFanName !in t.fans
    requires !Referenced(t.globals, Fan, FanName) && !Referenced(t.globals, Fan, SecondFanName)
    modifies t
  {
    // Add, then overwrite with the same data
    t.AddFanProfile(FanName, profile);
    t.AddFanProfile(FanName, profile);
    var got := t.GetFanProfile(FanName);
    assert got == Ok(profile);
    var names := t.ListFanProfiles();
    assert FanName in names;

    // Rename
    ghost var before := t.globals;
    var renamed := t.RenameFanProfile(FanName, SecondFanName);
    assert renamed.Ok?;
    UnreferencedCascadeChangesNothing(before, Fan, FanName, SecondFanName);
    names := t.ListFanProfiles();
    assert SecondFanName in names;
    names := t.ListFanProfiles();
    assert FanName !in names;
    renamed := t.RenameFanProfile(FanName, SecondFanName);
    assert renamed.Err?;
    var removed := t.RemoveFanProfile(FanName);
    assert removed.Err?;

    // Copy back to the old name, then remove both
    var copied := t.CopyFanProfile(SecondFanName, FanName);
    assert copied.Ok?;
    removed := t.RemoveFanProfile(FanName);
    assert removed.Ok?;
    removed := t.RemoveFanProfile(SecondFanName);
    assert removed.Ok?;
    removed := t.RemoveFanProfile(SecondFanName);
    assert removed.Err?;
  }

  /** `test_keyboard`: the keyboard profile store. */
  method TestKeyboard<F, K>(t: Tailor<F, K>, profile: K)
    requires SecondKeyboardName !in t.keyboards
    requires !Referenced(t.globals, Keyboard, KeyboardName) && !Referenced(t.globals, Keyboard, SecondKeyboardName)
    modifies t
  {
    // Add, then overwrite with the same data
    t.AddKeyboardProfile(KeyboardName, profile);
    t.AddKeyboardProfile(KeyboardName, profile);
    var got := t.GetKeyboardProfile(KeyboardName);
    assert got == Ok(profile);
    var names := t.ListKeyboardProfiles();
    assert KeyboardName in names;

    // Rename
    ghost var before := t.globals;
    var renamed := t.RenameKeyboardProfile(KeyboardName, SecondKeyboardName);
    assert renamed.Ok?;
    UnreferencedCascadeChangesNothing(before, Keyboard, KeyboardName, SecondKeyboardName);
    names := t.ListKeyboardProfiles();
    assert SecondKeyboardName in names;
    names := t.ListKeyboardProfiles();
    assert KeyboardName !in names;
    renamed := t.RenameKeyboardProfile(KeyboardName, SecondKeyboardName);
    assert renamed.Err?;
    var removed := t.RemoveKeyboardProfile(KeyboardName);
    assert removed.Err?;

    // Copy back to the old name, then remove both
    var copied := t.CopyKeyboardProfile(SecondKeyboardName, KeyboardName);
    assert copied.Ok?;
    removed := t.RemoveKeyboardProfile(KeyboardName);
    assert removed.Ok?;
    removed := t.RemoveKeyboardProfile(SecondKeyboardName);
    assert removed.Ok?;
    removed := t.RemoveKeyboardProfile(SecondKeyboardName);
    assert removed.Err?;
  }
}
