/**
 * The daemon's named-profile stores as its clients see them.
 *
 * Three stores map profile names to profiles: global profiles, fan profiles
 * and keyboard profiles. A global profile names the fan profile and the
 * keyboard profile it uses, and renaming a fan or keyboard profile rewrites
 * those names in every global profile (the rename cascade).
 *
 * The implementation of the stores is not part of this model; the contracts
 * below say what the client's integration tests rely on, and they leave open
 * what those tests leave open (see the comments on each method).
 */
module Profiles {

  datatype Result<T> = Ok(value: T) | Err

  /** A global profile: the names of the fan and keyboard profiles it uses. */
  datatype ProfileInfo = ProfileInfo(fan: string, keyboard: string)

  /** The kinds of profile a global profile refers to. */
  datatype Device = Fan | Keyboard

  /** The name a global profile gives for device `d`. */
  function Reference(p: ProfileInfo, d: Device): string
  {
    match d
    case Fan => p.fan
    case Keyboard => p.keyboard
  }

  /** `p` with its reference for device `d` replaced by `name`. */
  function WithReference(p: ProfileInfo, d: Device, name: string): (q: ProfileInfo)
    ensures Reference(q, d) == name
    ensures forall e :: e != d ==> Reference(q, e) == Reference(p, e)
  {
    match d
    case Fan => p.(fan := name)
    case Keyboard => p.(keyboard := name)
  }

  /** `names` lists the names in `keys`, each once, in some order. */
  ghost predicate Enumerates(names: seq<string>, keys: set<string>)
  {
    (forall n :: n in names <==> n in keys) &&
    (forall i, j :: 0 <= i < j < |names| ==> names[i] != names[j])
  }

  /** The names of a store, in no particular order. */
  method ListNames<V>(m: map<string, V>) returns (names: seq<string>)
    ensures Enumerates(names, m.Keys)
  {
    names := [];
    var rest := m.Keys;
    while rest != {}
      invariant rest <= m.Keys
      invariant forall n :: n in names <==> n in m.Keys - rest
      invariant forall i, j :: 0 <= i < j < |names| ==> names[i] != names[j]
      decreases |rest|
    {
      var n :| n in rest;
      assert n !in names;
      names := names + [n];
      rest := rest - {n};
    }
  }

  /** Store `m` after the profile `from` was renamed to `to`. */
  function Renamed<V>(m: map<string, V>, from: string, to: string): (r: map<string, V>)
    requires from in m
    ensures r.Keys == m.Keys - {from} + {to}
    ensures r[to] == m[from]
    ensures forall n :: n in m && n != from && n != to ==> r[n] == m[n]
  {
    (m - {from})[to := m[from]]
  }

  /**
   * The global profiles after the device-`d` profile `from` was renamed to
   * `to`: every reference to `from` now names `to`, nothing else changes.
   */
  function Retarget(globals: map<string, ProfileInfo>, d: Device, from: string, to: string)
    : (r: map<string, ProfileInfo>)
    ensures r.Keys == globals.Keys
    ensures forall n :: n in globals ==>
      Reference(r[n], d) == (if Reference(globals[n], d) == from then to else Reference(globals[n], d))
    ensures forall n, e :: n in globals && e != d ==> Reference(r[n], e) == Reference(globals[n], e)
  {
    map n | n in globals ::
      if Reference(globals[n], d) == from then WithReference(globals[n], d, to) else globals[n]
  }

  /** Some global profile refers to `name` for device `d`. */
  ghost predicate Referenced(globals: map<string, ProfileInfo>, d: Device, name: string)
  {
    exists n :: n in globals && Reference(globals[n], d) == name
  }

  /** Every global profile's device-`d` reference names one of `names`. */
  ghost predicate Resolves(globals: map<string, ProfileInfo>, d: Device, names: set<string>)
  {
    forall n :: n in globals ==> Reference(globals[n], d) in names
  }

  /** Two profiles are equal exactly when they name the same profiles for each device. */
  lemma SameReferencesSameProfile(p: ProfileInfo, q: ProfileInfo)
    requires forall d :: Reference(p, d) == Reference(q, d)
    ensures p == q
  {
    assert Reference(p, Fan) == Reference(q, Fan);
    assert Reference(p, Keyboard) == Reference(q, Keyboard);
  }

  /** Renaming a profile to an unused name and back restores the store. */
  lemma RenameBackRestores<V>(m: map<string, V>, a: string, b: string)
    requires a in m && b !in m
    ensures Renamed(Renamed(m, a, b), b, a) == m
  {
    var r := Renamed(Renamed(m, a, b), b, a);
    assert r.Keys == m.Keys;
    forall n | n in m ensures r[n] == m[n] {
    }
  }

  /**
   * The cascade of a rename to an unused name and back restores every global
   * profile, provided no global profile referred to that name beforehand.
   */
  lemma RetargetBackRestores(globals: map<string, ProfileInfo>, d: Device, a: string, b: string)
    requires !Referenced(globals, d, b)
    ensures Retarget(Retarget(globals, d, a, b), d, b, a) == globals
  {
    var r := Retarget(Retarget(globals, d, a, b), d, b, a);
    forall n | n in globals ensures r[n] == globals[n] {
      assert Reference(globals[n], d) != b;
      forall e ensures Reference(r[n], e) == Reference(globals[n], e) {
      }
      SameReferencesSameProfile(r[n], globals[n]);
    }
  }

  /**
   * The rename cascade changes nothing that a global profile resolves to:
   * whatever device-`d` profile it named before, it names the same profile
   * data afterwards, under the new name if that profile was renamed.
   */
  lemma CascadeKeepsResolution<V>(globals: map<string, ProfileInfo>, d: Device, m: map<string, V>,
                                   a: string, b: string, n: string)
    requires a in m && b !in m
    requires n in globals && Reference(globals[n], d) in m
    ensures Reference(Retarget(globals, d, a, b)[n], d) in Renamed(m, a, b)
    ensures Renamed(m, a, b)[Reference(Retarget(globals, d, a, b)[n], d)] == m[Reference(globals[n], d)]
  {
    var old_ref := Reference(globals[n], d);
    if old_ref != a {
      assert old_ref != b;
      assert Reference(Retarget(globals, d, a, b)[n], d) == old_ref;
    }
  }

  /** A rename with its cascade keeps every global profile's references resolvable. */
  lemma CascadeKeepsResolvable<V>(globals: map<string, ProfileInfo>, d: Device, m: map<string, V>,
                                  a: string, b: string)
    requires a in m && b !in m
    requires Resolves(globals, d, m.Keys)
    ensures Resolves(Retarget(globals, d, a, b), d, Renamed(m, a, b).Keys)
  {
    forall n | n in Retarget(globals, d, a, b)
      ensures Reference(Retarget(globals, d, a, b)[n], d) in Renamed(m, a, b).Keys
    {
      CascadeKeepsResolution(globals, d, m, a, b, n);
    }
  }

  /** The cascade of renaming a profile no global profile refers to changes nothing. */
  lemma UnreferencedCascadeChangesNothing(globals: map<string, ProfileInfo>, d: Device, a: string, b: string)
    requires !Referenced(globals, d, a)
    ensures Retarget(globals, d, a, b) == globals
  {
    var r := Retarget(globals, d, a, b);
    forall n | n in globals ensures r[n] == globals[n] {
      assert Reference(globals[n], d) != a;
      forall e ensures Reference(r[n], e) == Reference(globals[n], e) {
      }
      SameReferencesSameProfile(r[n], globals[n]);
    }
  }

  /** After the cascade nothing refers to the old name, unless it is also the new one. */
  lemma CascadeLeavesNoOldReference(globals: map<string, ProfileInfo>, d: Device, a: string, b: string)
    requires a != b
    ensures !Referenced(Retarget(globals, d, a, b), d, a)
  {
    var r := Retarget(globals, d, a, b);
    forall n | n in r ensures Reference(r[n], d) != a {
    }
  }

  /**
   * The daemon's profile stores. Fan and keyboard profile data is opaque to
   * the stores (type parameters `F` and `K`); `active` is the name of the
   * global profile in use.
   */
  class Tailor<F, K> {
    var globals: map<string, ProfileInfo>
    var fans: map<string, F>
    var keyboards: map<string, K>
    var active: string

    /** The stores as the daemon loaded them at start. */
    constructor (globals: map<string, ProfileInfo>, fans: map<string, F>, keyboards: map<string, K>,
                 active: string)
      ensures this.globals == globals && this.fans == fans && this.keyboards == keyboards
      ensures this.active == active
    {
      this.globals := globals;
      this.fans := fans;
      this.keyboards := keyboards;
      this.active := active;
    }

    // ----- global profiles -------------------------------------------------

    /** Insert or overwrite; never fails. */
    method AddGlobalProfile(name: string, profile: ProfileInfo)
      modifies this
      ensures globals == old(globals)[name := profile]
      ensures fans == old(fans) && keyboards == old(keyboards) && active == old(active)
    {
      globals := globals[name := profile];
    }

    method GetGlobalProfile(name: string) returns (r: Result<ProfileInfo>)
      ensures r.Ok? <==> name in globals
      ensures r.Ok? ==> r.value == globals[name]
    {
      r := if name in globals then Ok(globals[name]) else Err;
    }

    method ListGlobalProfiles() returns (names: seq<string>)
      ensures Enumerates(names, globals.Keys)
    {
      names := ListNames(globals);
    }

    /**
     * Fails on a missing name and succeeds on a present one that is not the
     * active profile; removing the active profile is left open. The active
     * name itself never changes here.
     */
    method RemoveGlobalProfile(name: string) returns (r: Result<()>)
      modifies this
      ensures name !in old(globals) ==> r.Err?
      ensures name in old(globals) && name != old(active) ==> r.Ok?
      ensures r.Ok? ==> globals == old(globals) - {name}
      ensures r.Err? ==> globals == old(globals)
      ensures fans == old(fans) && keyboards == old(keyboards)
      ensures active == old(active)
    {
      if name in globals {
        globals := globals - {name};
        r := Ok(());
      } else {
        r := Err;
      }
    }

    /**
     * Fails on a missing source and succeeds when the target is free,
     * returning the new list of names; renaming onto a taken name is left
     * open. When the active profile is renamed, the active name follows.
     */
    method RenameGlobalProfile(from: string, to: string) returns (r: Result<seq<string>>)
      modifies this
      ensures from !in old(globals) ==> r.Err?
      ensures from in old(globals) && to !in old(globals) ==> r.Ok?
      ensures r.Ok? ==> from in old(globals) && globals == Renamed(old(globals), from, to)
      ensures r.Ok? ==> Enumerates(r.value, globals.Keys)
      ensures active == if r.Ok? && old(active) == from then to else old(active)
      ensures r.Err? ==> globals == old(globals)
      ensures fans == old(fans) && keyboards == old(keyboards)
    {
      if from in globals && to !in globals {
        globals := Renamed(globals, from, to);
        if active == from {
          active := to;
        }
        var names := ListNames(globals);
        r := Ok(names);
      } else {
        r := Err;
      }
    }

    /**
     * Copies the profile `from` to the name `to`: succeeds when `from` exists
     * and `to` does not; copying onto a taken name is left open.
     */
    method CopyGlobalProfile(from: string, to: string) returns (r: Result<()>)
      modifies this
      ensures from in old(globals) && to !in old(globals) ==> r.Ok?
      ensures r.Ok? ==> from in old(globals) && globals == old(globals)[to := old(globals)[from]]
      ensures r.Err? ==> globals == old(globals)
      ensures fans == old(fans) && keyboards == old(keyboards) && active == old(active)
    {
      if from in globals {
        globals := globals[to := globals[from]];
        r := Ok(());
      } else {
        r := Err;
      }
    }

    method GetActiveGlobalProfileName() returns (name: string)
      ensures name == active
    {
      name := active;
    }

    /** Only an existing global profile can become the active one. */
    method SetActiveProfileName(name: string) returns (r: Result<()>)
      modifies this
      ensures r.Ok? <==> name in globals
      ensures active == if r.Ok? then name else old(active)
      ensures globals == old(globals) && fans == old(fans) && keyboards == old(keyboards)
    {
      if name in globals {
        active := name;
        r := Ok(());
      } else {
        r := Err;
      }
    }

    // ----- fan profiles ----------------------------------------------------

    /** Insert or overwrite; never fails. */
    method AddFanProfile(name: string, profile: F)
      modifies this
      ensures fans == old(fans)[name := profile]
      ensures globals == old(globals) && keyboards == old(keyboards) && active == old(active)
    {
      fans := fans[name := profile];
    }

    method GetFanProfile(name: string) returns (r: Result<F>)
      ensures r.Ok? <==> name in fans
      ensures r.Ok? ==> r.value == fans[name]
    {
      r := if name in fans then Ok(fans[name]) else Err;
    }

    method ListFanProfiles() returns (names: seq<string>)
      ensures Enumerates(names, fans.Keys)
    {
      names := ListNames(fans);
    }

    /**
     * Fails on a missing name and succeeds on a present one that no global
     * profile refers to; removing a referenced profile is left open.
     */
    method RemoveFanProfile(name: string) returns (r: Result<()>)
      modifies this
      ensures name !in old(fans) ==> r.Err?
      ensures name in old(fans) && !Referenced(old(globals), Fan, name) ==> r.Ok?
      ensures r.Ok? ==> fans == old(fans) - {name}
      ensures r.Err? ==> fans == old(fans)
      ensures globals == old(globals) && keyboards == old(keyboards) && active == old(active)
    {
      if name in fans {
        fans := fans - {name};
        r := Ok(());
      } else {
        r := Err;
      }
    }

    /**
     * Renames a fan profile and, in the same step, every global profile's
     * reference to it. Fails on a missing source and succeeds when the target
     * is free; renaming onto a taken name is left open.
     */
    method RenameFanProfile(from: string, to: string) returns (r: Result<seq<string>>)
      modifies this
      ensures from !in old(fans) ==> r.Err?
      ensures from in old(fans) && to !in old(fans) ==> r.Ok?
      ensures r.Ok? ==> from in old(fans) && fans == Renamed(old(fans), from, to)
      ensures r.Ok? ==> globals == Retarget(old(globals), Fan, from, to)
      ensures r.Ok? ==> Enumerates(r.value, fans.Keys)
      ensures r.Err? ==> fans == old(fans) && globals == old(globals)
      ensures keyboards == old(keyboards) && active == old(active)
    {
      if from in fans && to !in fans {
        fans := Renamed(fans, from, to);
        globals := Retarget(globals, Fan, from, to);
        var names := ListNames(fans);
        r := Ok(names);
      } else {
        r := Err;
      }
    }

    /**
     * Copies the fan profile `from` to the name `to`: succeeds when `from`
     * exists and `to` does not; copying onto a taken name is left open.
     */
    method CopyFanProfile(from: string, to: string) returns (r: Result<()>)
      modifies this
      ensures from in old(fans) && to !in old(fans) ==> r.Ok?
      ensures r.Ok? ==> from in old(fans) && fans == old(fans)[to := old(fans)[from]]
      ensures r.Err? ==> fans == old(fans)
      ensures globals == old(globals) && keyboards == old(keyboards) && active == old(active)
    {
      if from in fans {
        fans := fans[to := fans[from]];
        r := Ok(());
      } else {
        r := Err;
      }
    }

    // ----- keyboard profiles -----------------------------------------------

    /** Insert or overwrite; never fails. */
    method AddKeyboardProfile(name: string, profile: K)
      modifies this
      ensures keyboards == old(keyboards)[name := profile]
      ensures globals == old(globals) && fans == old(fans) && active == old(active)
    {
      keyboards := keyboards[name := profile];
    }

    method GetKeyboardProfile(name: string) returns (r: Result<K>)
      ensures r.Ok? <==> name in keyboards
      ensures r.Ok? ==> r.value == keyboards[name]
    {
      r := if name in keyboards then Ok(keyboards[name]) else Err;
    }

    method ListKeyboardProfiles() returns (names: seq<string>)
      ensures Enumerates(names, keyboards.Keys)
    {
      names := ListNames(keyboards);
    }

    /**
     * Fails on a missing name and succeeds on a present one that no global
     * profile refers to; removing a referenced profile is left open.
     */
    method RemoveKeyboardProfile(name: string) returns (r: Result<()>)
      modifies this
      ensures name !in old(keyboards) ==> r.Err?
      ensures name in old(keyboards) && !Referenced(old(globals), Keyboard, name) ==> r.Ok?
      ensures r.Ok? ==> keyboards == old(keyboards) - {name}
      ensures r.Err? ==> keyboards == old(keyboards)
      ensures globals == old(globals) && fans == old(fans) && active == old(active)
    {
      if name in keyboards {
        keyboards := keyboards - {name};
        r := Ok(());
      } else {
        r := Err;
      }
    }

    /**
     * Renames a keyboard profile and, in the same step, every global
     * profile's reference to it. Fails on a missing source and succeeds when
     * the target is free; renaming onto a taken name is left open.
     */
    method RenameKeyboardProfile(from: string, to: string) returns (r: Result<seq<string>>)
      modifies this
      ensures from !in old(keyboards) ==> r.Err?
      ensures from in old(keyboards) && to !in old(keyboards) ==> r.Ok?
      ensures r.Ok? ==> from in old(keyboards) && keyboards == Renamed(old(keyboards), from, to)
      ensures r.Ok? ==> globals == Retarget(old(globals), Keyboard, from, to)
      ensures r.Ok? ==> Enumerates(r.value, keyboards.Keys)
      ensures r.Err? ==> keyboards == old(keyboards) && globals == old(globals)
      ensures fans == old(fans) && active == old(active)
    {
      if from in keyboards && to !in keyboards {
        keyboards := Renamed(keyboards, from, to);
        globals := Retarget(globals, Keyboard, from, to);
        var names := ListNames(keyboards);
        r := Ok(names);
      } else {
        r := Err;
      }
    }

    /**
     * Copies the keyboard profile `from` to the name `to`: succeeds when
     * `from` exists and `to` does not; copying onto a taken name is left open.
     */
    method CopyKeyboardProfile(from: string, to: string) returns (r: Result<()>)
      modifies this
      ensures from in old(keyboards) && to !in old(keyboards) ==> r.Ok?
      ensures r.Ok? ==> from in old(keyboards) && keyboards == old(keyboards)[to := old(keyboards)[from]]
      ensures r.Err? ==> keyboards == old(keyboards)
      ensures globals == old(globals) && fans == old(fans) && active == old(active)
    {
      if from in keyboards {
        keyboards := keyboards[to := keyboards[from]];
        r := Ok(());
      } else {
        r := Err;
      }
    }
  }
}
