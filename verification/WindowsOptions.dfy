/** `WindowsOptionsDialog` of gui/rufusarm64.py: check boxes whose signal handlers
    switch off other check boxes. Handlers run inside the call that changed the
    box; the set of active boxes only ever shrinks in them, which is why every
    cascade ends. */
module WindowsOptions {
  import opened Base

  datatype Box =
    | Hardware | Online | Account | Privacy | Quality | SkuPolicy | Ca2023 | Region | Silent | Bitlocker | ToGo

  type Boxes = set<Box>

  datatype Image = Image(index: int, name: string, language: string, totalBytes: int)

  /** What stays fixed while the dialog is open: the boxes the media allow, the
      two regional capabilities, the resolved layout, the regional settings found
      and the images. `given` tells whether a name is left after stripping. */
  datatype Setup = Setup(
    caps: Boxes, localeCap: bool, zoneCap: bool, target: string, filesystem: string, locale: string, zone: string,
    images: seq<Image>, given: string -> bool)

  // ------------------------------------------------- the state at rest

  /** The installer-only options. */
  const FIVE: Boxes := {Hardware, SkuPolicy, Ca2023, Silent, Bitlocker}

  predicate RegionAllowed(s: Setup) {
    (s.locale != "" || s.zone != "") && (s.locale != "" ==> s.localeCap) && (s.zone != "" ==> s.zoneCap)
  }

  predicate GuardedLayout(s: Setup) {
    s.target == "uefi" && (s.filesystem == "fat32" || s.filesystem == "ntfs")
  }

  /** The media and the layout allow this box. */
  predicate Allows(s: Setup, b: Box) {
    match b
    case SkuPolicy => b in s.caps && s.target == "uefi"
    case Ca2023 => b in s.caps && s.target == "uefi" && s.filesystem == "fat32"
    case Silent => b in s.caps && GuardedLayout(s)
    case Region => RegionAllowed(s)
    case _ => b in s.caps
  }

  /** Everything silent installation needs besides its own box. */
  predicate Prerequisites(s: Setup, allowed: bool, active: Boxes, user: string) {
    && allowed && Account in active && s.given(user) && Privacy in active && Region in active
    && s.locale != "" && s.zone != "" && s.images != []
  }

  function Kept(s: Setup, active: Boxes): Boxes {
    set b | b in active && Allows(s, b)
  }

  /** The box survives once every rule has been enforced on these choices. */
  predicate Survives(s: Setup, active: Boxes, user: string, b: Box) {
    && b in active && Allows(s, b)
    && (ToGo in active && Allows(s, ToGo) ==> b !in FIVE)
    && (b == Silent ==> Prerequisites(s, true, Kept(s, active), user))
  }

  predicate IsSensitive(s: Setup, active: Boxes, user: string, b: Box) {
    && Allows(s, b) && (ToGo in active ==> b !in FIVE)
    && (b == Silent ==> Prerequisites(s, true, active, user))
  }

  class WindowsOptionsDialog {
    const setup: Setup
    var active: Boxes
    var sensitive: Boxes
    var localUser: string
    var userSensitive: bool
    var edition: Option<int>
    var editionSensitive: bool
    var accountAllowed: bool
    var silentAllowed: bool
    var toGoAllowed: bool

    /** No rule is left to enforce, and the widgets show it. */
    ghost predicate AtRest()
      reads this
    {
      && (forall b :: b in active ==> Survives(setup, active, localUser, b))
      && (forall b :: b in sensitive <==> IsSensitive(setup, active, localUser, b))
      && accountAllowed == (Account in setup.caps) && silentAllowed == Allows(setup, Silent)
      && toGoAllowed == (ToGo in setup.caps)
      && userSensitive == (accountAllowed && Account in active)
      && editionSensitive == if ToGo in active then setup.images != [] else Silent in active
    }

    predicate Keeps()
      reads this
    {
      ToGo !in active && Prerequisites(setup, silentAllowed, active, localUser)
    }

    /** `update_silent_install_sensitivity`. */
    method UpdateSilent()
      modifies this`active, this`sensitive, this`editionSensitive, this`userSensitive
      ensures userSensitive == old(userSensitive)
      ensures active == if old(Keeps()) then old(active) else old(active) - {Silent}
      ensures sensitive == if old(Keeps()) then old(sensitive) + {Silent} else old(sensitive) - {Silent}
      ensures editionSensitive == if ToGo in old(active) then setup.images != [] else Silent in active
      decreases active, 2
    {
      if ToGo in active {
        SetOff(Silent);
        sensitive := sensitive - {Silent};
        editionSensitive := setup.images != [];
        return;
      }
      var prerequisites := Prerequisites(setup, silentAllowed, active, localUser);
      if prerequisites {
        sensitive := sensitive + {Silent};
      } else {
        SetOff(Silent);
        sensitive := sensitive - {Silent};
      }
      editionSensitive := prerequisites && Silent in active;
    }

    /** `update_local_user_sensitivity`. */
    method UpdateLocalUser()
      modifies this`userSensitive
      ensures userSensitive == (accountAllowed && Account in active)
    {
      userSensitive := accountAllowed && Account in active;
    }

    /** `set_active(False)`: a change fires the box's handler, if it has one. */
    method SetOff(b: Box)
      requires b != ToGo
      modifies this`active, this`sensitive, this`editionSensitive, this`userSensitive
      ensures active == if b in old(active) then old(active) - Cascade(b) else old(active)
      ensures forall x :: x != Silent ==> (x in sensitive <==> x in old(sensitive))
      ensures b !in old(active) || b !in SIGNALLING ==> sensitive == old(sensitive)
      ensures b != Account ==> userSensitive == old(userSensitive)
      decreases active, 1, 0
    {
      if b in active {
        active := active - {b};
        Fire(b);
      }
    }

    /** `apply_option_capability`. */
    method ApplyOption(b: Box)
      requires b != ToGo
      modifies this`active, this`sensitive, this`editionSensitive, this`userSensitive
      ensures forall x :: x in active <==>
          x in old(active) && (b in old(active) && b !in setup.caps ==> x !in Cascade(b))
      ensures forall x :: x != b && x != Silent ==> (x in sensitive <==> x in old(sensitive))
      ensures b in sensitive <==> b in setup.caps
      ensures b !in SIGNALLING ==> (Silent in sensitive <==> Silent in old(sensitive))
      decreases active, 2
    {
      if b !in setup.caps { SetOff(b); }
      sensitive := if b in setup.caps then sensitive + {b} else sensitive - {b};
    }

    /** A box without a handler that the layout forbids. */
    method Forbid(b: Box)
      requires b == SkuPolicy || b == Ca2023
      modifies this`active, this`sensitive
      ensures active == old(active) - {b} && sensitive == old(sensitive) - {b}
    {
      active := active - {b};
      sensitive := sensitive - {b};
    }

    /** The options applied before Windows To Go. */
    method ApplyInstallerOptions()
      modifies this`active, this`sensitive, this`editionSensitive, this`userSensitive, this`accountAllowed
      ensures active <= old(active)
      ensures forall b :: b in active <==> StaysFirst(setup, old(active), b)
      ensures forall b :: b in FIRST ==> (b in sensitive <==> Allows(setup, b))
      ensures accountAllowed == (Account in setup.caps)
      decreases active, 5
    {
      ghost var a0 := active;
      ApplySetupOptions();
      ghost var a1 := active;
      ApplyMediaOptions();
      forall b ensures b in active <==> StaysFirst(setup, a0, b) {
        assert b in a1 <==> b in a0 && StaysSetup(setup, a0, b);
      }
    }

    /** Hardware checks, online account, local account and privacy. */
    method ApplySetupOptions()
      modifies this`active, this`sensitive, this`editionSensitive, this`userSensitive, this`accountAllowed
      ensures active <= old(active)
      ensures forall b :: b in active <==> b in old(active) && StaysSetup(setup, old(active), b)
      ensures forall b :: b in {Hardware, Online, Account, Privacy} ==> (b in sensitive <==> b in setup.caps)
      ensures accountAllowed == (Account in setup.caps)
      decreases active, 3
    {
      ApplyOption(Hardware);
      ApplyOption(Online);
      ApplyOption(Account);
      accountAllowed := Account in setup.caps;
      ApplyOption(Privacy);
    }

    /** Quality of Life, SkuSiPolicy, CA 2023 boot files and BitLocker. */
    method ApplyMediaOptions()
      modifies this`active, this`sensitive, this`editionSensitive, this`userSensitive
      ensures active <= old(active)
      ensures forall b :: b in active <==>
          b in old(active) && (b in {Quality, SkuPolicy, Ca2023, Bitlocker} ==> Allows(setup, b))
      ensures forall b :: b in {Quality, SkuPolicy, Ca2023, Bitlocker} ==> (b in sensitive <==> Allows(setup, b))
      ensures forall b :: b in {Hardware, Online, Account, Privacy} ==> (b in sensitive <==> b in old(sensitive))
      decreases active, 4
    {
      ApplyOption(Quality);
      ApplyBootFiles();
      ApplyOption(Bitlocker);
    }

    method ApplyBootFiles()
      modifies this`active, this`sensitive, this`editionSensitive, this`userSensitive
      ensures active <= old(active)
      ensures forall b :: b in active <==> b in old(active) && (b == SkuPolicy || b == Ca2023 ==> Allows(setup, b))
      ensures forall b :: b in sensitive <==>
          if b == SkuPolicy || b == Ca2023 then Allows(setup, b) else b in old(sensitive)
      decreases active, 3
    {
      ApplyOption(SkuPolicy);
      if SkuPolicy in setup.caps && setup.target != "uefi" { Forbid(SkuPolicy); }
      ApplyOption(Ca2023);
      if Ca2023 in setup.caps && setup.target != "uefi" { Forbid(Ca2023); }
      else if Ca2023 in setup.caps && setup.filesystem != "fat32" { Forbid(Ca2023); }
    }

    /** `windows_to_go.set_active(False)`: its handler applies all capabilities
        again, inside the call that is applying them. */
    method SetToGoOff()
      modifies this
      ensures localUser == old(localUser) && edition == old(edition)
      ensures active <= old(active)
      ensures ToGo in old(active) ==>
                AtRest() && forall b :: b in active <==> Survives(setup, old(active) - {ToGo}, localUser, b)
      ensures ToGo !in old(active) ==>
                && active == old(active) && sensitive == old(sensitive)
                && accountAllowed == old(accountAllowed) && silentAllowed == old(silentAllowed)
      decreases active, 1
    {
      if ToGo in active {
        active := active - {ToGo};
        ApplyCapabilities();
      }
    }

    /** Windows To Go and silent installation. */
    method ApplyImageModes()
      requires accountAllowed == (Account in setup.caps) && forall b :: b in FIRST ==>
          (b in sensitive <==> Allows(setup, b))
      modifies this
      ensures localUser == old(localUser) && edition == old(edition)
      ensures accountAllowed == (Account in setup.caps) && silentAllowed == Allows(setup, Silent)
      ensures toGoAllowed == (ToGo in setup.caps)
      ensures active <= old(active)
      ensures forall b :: b in FIRST || b == ToGo ==> (b in sensitive <==> Allows(setup, b))
      ensures forall b :: b in active <==> StaysSecond(setup, old(active), localUser, b)
      decreases active, 3
    {
      if ToGo !in setup.caps { SetToGoOff(); }
      sensitive := if ToGo in setup.caps then sensitive + {ToGo} else sensitive - {ToGo};
      toGoAllowed := ToGo in setup.caps;
      ApplyOption(Silent);
      silentAllowed := Silent in setup.caps;
      if silentAllowed && !GuardedLayout(setup) {
        SetOff(Silent);
        sensitive := sensitive - {Silent};
        silentAllowed := false;
      }
    }

    /** The regional settings. */
    method ApplyRegion()
      modifies this`active, this`sensitive, this`editionSensitive, this`userSensitive
      ensures active == if Region in old(active) && !RegionAllowed(setup) then old(active) - {Region, Silent}
          else old(active)
      ensures forall b :: b != Silent && b != Region ==> (b in sensitive <==> b in old(sensitive))
      ensures Region in sensitive <==> RegionAllowed(setup)
      decreases active, 3
    {
      var allowed := setup.locale != "" || setup.zone != "";
      if setup.locale != "" { allowed := allowed && setup.localeCap; }
      if setup.zone != "" { allowed := allowed && setup.zoneCap; }
      if !allowed { SetOff(Region); }
      sensitive := if allowed then sensitive + {Region} else sensitive - {Region};
    }

    /** Each incompatible box is switched off and made insensitive, in order. */
    method DropInstallerOptions()
      requires ToGo in active
      modifies this`active, this`sensitive, this`editionSensitive, this`userSensitive
      ensures active == old(active) - FIVE && sensitive == old(sensitive) - FIVE
      decreases active, 2
    {
      Drop(Hardware);
      Drop(SkuPolicy);
      Drop(Ca2023);
      Drop(Silent);
      Drop(Bitlocker);
    }

    method Drop(b: Box)
      requires b in FIVE
      modifies this`active, this`sensitive, this`editionSensitive, this`userSensitive
      ensures active == old(active) - {b} && sensitive == old(sensitive) - {b}
      decreases active, 1, 1
    {
      SetOff(b);
      sensitive := sensitive - {b};
    }

    /** `enforce_windows_image_mode`. */
    method EnforceImageMode()
      modifies this`active, this`sensitive, this`editionSensitive, this`userSensitive
      ensures active == if toGoAllowed && ToGo in old(active) then old(active) - FIVE
          else if old(Keeps()) then old(active) else old(active) - {Silent}
      ensures sensitive == if toGoAllowed && ToGo in old(active) then old(sensitive) - FIVE
          else if old(Keeps()) then old(sensitive) + {Silent} else old(sensitive) - {Silent}
      ensures userSensitive == (accountAllowed && Account in active)
      ensures editionSensitive == if ToGo in old(active) then setup.images != [] else Silent in active
      decreases active, 3
    {
      if toGoAllowed && ToGo in active {
        DropInstallerOptions();
        UpdateLocalUser();
        editionSensitive := setup.images != [];
      } else {
        UpdateLocalUser();
        UpdateSilent();
      }
    }

    /** The closing calls of `apply_capabilities`. */
    method Conclude()
      requires accountAllowed == (Account in setup.caps) && silentAllowed == Allows(setup, Silent)
      requires toGoAllowed == (ToGo in setup.caps)
      requires forall b :: b != Silent ==> (b in sensitive <==> Allows(setup, b))
      requires ToGo in active ==> ToGo in setup.caps
      modifies this`active, this`sensitive, this`editionSensitive, this`userSensitive
      ensures active == Concluded(setup, old(active), localUser)
      ensures forall b :: b in sensitive <==> IsSensitive(setup, active, localUser, b)
      ensures userSensitive == (accountAllowed && Account in active)
      ensures editionSensitive == if ToGo in active then setup.images != [] else Silent in active
      decreases active, 3, 1
    {
      UpdateLocalUser();
      UpdateSilent();
      EnforceImageMode();
    }

    /** `apply_capabilities`: whatever was active, exactly the choices that every
        rule allows survive. */
    method ApplyCapabilities()
      modifies this
      ensures localUser == old(localUser) && edition == old(edition) && active <= old(active)
      ensures AtRest() && forall b :: b in active <==> Survives(setup, old(active), localUser, b)
      decreases active, 6, 1
    {
      ghost var a0 := active;
      ApplyInstallerOptions();
      ghost var a1 := active;
      ApplyImageModes();
      ghost var a2 := active;
      ApplyRegion();
      ghost var a3 := active;
      SensitiveStages(setup, a1, a2, localUser);
      Conclude();
      Settles(setup, localUser, a0, a1, a2, a3, active);
    }

    /** The dialog opens on remembered choices. */
    constructor (setup: Setup, active: Boxes, localUser: string, previousIndex: int)
      ensures this.setup == setup && this.localUser == localUser
      ensures AtRest() && forall b :: b in this.active <==> Survives(setup, active, localUser, b)
      ensures edition.Some? ==> exists i :: 0 <= i < |setup.images| && setup.images[i].index == edition.value
    {
      this.setup, this.active, this.localUser := setup, active, localUser;
      sensitive := {Hardware, Online, Account, Privacy, Quality, SkuPolicy, Ca2023, Region, Silent, Bitlocker, ToGo};
      userSensitive, editionSensitive, accountAllowed, silentAllowed, toGoAllowed := true, true, false, false, false;
      edition := if exists i :: 0 <= i < |setup.images| && setup.images[i].index == previousIndex
          then Some(previousIndex)
                 else if setup.images != [] then Some(setup.images[0].index) else None;
      new;
      ApplyCapabilities();
    }

    /** The user clicks a sensitive box; its handler cascades. The new choices are
        the clicked ones less whatever a rule forbids. */
    method Toggle(b: Box)
      requires AtRest() && b in sensitive && b != ToGo
      modifies this
      ensures AtRest() && localUser == old(localUser) && edition == old(edition)
      ensures forall x :: x in active <==> Survives(setup, Toggled(old(active), b), localUser, x)
    {
      ghost var a0 := active;
      active := Toggled(active, b);
      Fire(b);
      TogglingSettles(setup, localUser, a0, b, active);
    }

    /** The handler of a box other than Windows To Go. */
    method Fire(b: Box)
      modifies this`active, this`sensitive, this`editionSensitive, this`userSensitive
      ensures active == if b !in SIGNALLING || old(Keeps()) then old(active) else old(active) - {Silent}
      ensures sensitive == if b !in SIGNALLING then old(sensitive) else if old(Keeps()) then old(sensitive) + {Silent}
          else old(sensitive) - {Silent}
      ensures editionSensitive == if b !in SIGNALLING then old(editionSensitive)
          else if ToGo in old(active) then setup.images != [] else Silent in active
      ensures userSensitive == if b == Account then accountAllowed && Account in active else old(userSensitive)
      decreases active, 3
    {
      if b == Account { UpdateLocalUser(); }
      if b in SIGNALLING { UpdateSilent(); }
    }

    /** The user clicks Windows To Go. */
    method ToggleToGo()
      requires AtRest() && ToGo in sensitive
      modifies this
      ensures AtRest() && localUser == old(localUser) && edition == old(edition)
      ensures forall x :: x in active <==> Survives(setup, Toggled(old(active), ToGo), localUser, x)
    {
      ghost var a0 := active;
      active := Toggled(active, ToGo);
      UpdateWindowsToGo(a0);
    }

    /** `update_windows_to_go_sensitivity`, after a click. */
    method UpdateWindowsToGo(ghost before: Boxes)
      requires active == Toggled(before, ToGo) && ToGo in setup.caps
      requires forall b :: b in before ==> Survives(setup, before, localUser, b)
      requires forall b :: b in sensitive <==> IsSensitive(setup, before, localUser, b)
      requires accountAllowed == (Account in setup.caps) && silentAllowed == Allows(setup, Silent)
      requires toGoAllowed == (ToGo in setup.caps)
      modifies this
      ensures AtRest() && localUser == old(localUser) && edition == old(edition)
      ensures forall x :: x in active <==> Survives(setup, old(active), localUser, x)
    {
      if ToGo in active {
        EnforceImageMode();
        SwitchedToGo(setup, localUser, before, active);
      } else {
        ApplyCapabilities();
      }
    }

    /** The user picks one of the listed images. */
    method SelectEdition(k: nat)
      requires AtRest() && editionSensitive && k < |setup.images|
      modifies this`edition
      ensures AtRest() && edition == Some(setup.images[k].index)
    {
      edition := Some(setup.images[k].index);
    }

    /** The user edits the account name. */
    method EditUser(text: string)
      requires AtRest() && userSensitive
      modifies this
      ensures AtRest() && localUser == text && edition == old(edition)
      ensures forall x :: x in active <==> Survives(setup, old(active), text, x)
    {
      ghost var a0 := active;
      localUser := text;
      UpdateSilent();
      EditingSettles(setup, old(localUser), text, a0, active);
    }
  }

  function Toggled(active: Boxes, b: Box): Boxes {
    if b in active then active - {b} else active + {b}
  }

  ghost predicate Settled(s: Setup, active: Boxes, user: string) {
    forall b :: b in active ==> Survives(s, active, user, b)
  }

  lemma KeptAll(s: Setup, active: Boxes)
    requires forall b :: b in active ==> Allows(s, b)
    ensures Kept(s, active) == active
  {
  }

  /** A click outside Windows To Go, and the cascade it fires. */
  lemma TogglingSettles(s: Setup, user: string, a0: Boxes, b: Box, a: Boxes)
    requires Settled(s, a0, user) && b != ToGo && IsSensitive(s, a0, user, b)
    requires var t := Toggled(a0, b);
             a == if b !in SIGNALLING || (ToGo !in t && Prerequisites(s, Allows(s, Silent), t, user)) then t
                 else t - {Silent}
    ensures Settled(s, a, user) && forall x :: x in a <==> Survives(s, Toggled(a0, b), user, x)
    ensures forall x :: IsSensitive(s, a, user, x) <==> if x == Silent && b in SIGNALLING
        then ToGo !in a0 && Prerequisites(s, Allows(s, Silent), Toggled(a0, b), user) else IsSensitive(s, a0, user, x)
  {
    var t := Toggled(a0, b);
    KeptAll(s, a0);
    KeptAll(s, t);
    KeptAll(s, a);
  }

  lemma SwitchedToGo(s: Setup, user: string, a0: Boxes, a: Boxes)
    requires Settled(s, a0, user) && ToGo in s.caps && ToGo !in a0 && a == (a0 + {ToGo}) - FIVE
    ensures Settled(s, a, user) && forall x :: x in a <==> Survives(s, a0 + {ToGo}, user, x)
    ensures forall x :: IsSensitive(s, a, user, x) <==> IsSensitive(s, a0, user, x) && x !in FIVE
  {
    KeptAll(s, a);
  }

  lemma EditingSettles(s: Setup, user: string, text: string, a0: Boxes, a: Boxes)
    requires Settled(s, a0, user)
    requires a == if ToGo !in a0 && Prerequisites(s, Allows(s, Silent), a0, text) then a0 else a0 - {Silent}
    ensures Settled(s, a, text) && forall x :: x in a <==> Survives(s, a0, text, x)
    ensures forall x :: IsSensitive(s, a, text, x) <==> if x == Silent
        then ToGo !in a0 && Prerequisites(s, Allows(s, Silent), a0, text) else IsSensitive(s, a0, user, x)
  {
    KeptAll(s, a0);
    KeptAll(s, a);
  }

  /** The boxes whose signal reaches silent installation. */
  const SIGNALLING: Boxes := {Account, Privacy, Region, Silent}

  /** What goes off with a box. */
  function Cascade(b: Box): Boxes {
    if b in SIGNALLING then {b, Silent} else {b}
  }

  /** The boxes applied before Windows To Go. */
  const FIRST: Boxes := {Hardware, Online, Account, Privacy, Quality, SkuPolicy, Ca2023, Bitlocker}

  predicate StaysSetup(s: Setup, active: Boxes, b: Box) {
    && (b in {Hardware, Online, Account, Privacy} ==> b in s.caps)
    && (b == Silent ==> (Account in active ==> Account in s.caps) && (Privacy in active ==> Privacy in s.caps))
  }

  predicate StaysFirst(s: Setup, active: Boxes, b: Box) {
    && b in active && (b in FIRST ==> Allows(s, b))
    && (b == Silent ==> (Account in active ==> Account in s.caps) && (Privacy in active ==> Privacy in s.caps))
  }

  predicate StaysSecond(s: Setup, active: Boxes, user: string, b: Box) {
    if ToGo in active && ToGo !in s.caps then Survives(s, active - {ToGo}, user, b)
    else b in active && (b == Silent ==> Allows(s, Silent))
  }

  function Concluded(s: Setup, active: Boxes, user: string): Boxes {
    if ToGo in active then active - FIVE
    else if Prerequisites(s, Allows(s, Silent), active, user) then active
    else active - {Silent}
  }

  lemma SensitiveStages(s: Setup, a1: Boxes, a2: Boxes, user: string)
    requires forall b :: b in a2 <==> StaysSecond(s, a1, user, b)
    ensures ToGo in a2 ==> ToGo in s.caps
  {
  }

  /** Applying the stages in order lands on the surviving choices, wherever a
      handler cut in. */
  lemma Settles(s: Setup, user: string, a0: Boxes, a1: Boxes, a2: Boxes, a3: Boxes, a: Boxes)
    requires forall b :: b in a1 <==> StaysFirst(s, a0, b)
    requires forall b :: b in a2 <==> StaysSecond(s, a1, user, b)
    requires a3 == if Region in a2 && !RegionAllowed(s) then a2 - {Region, Silent} else a2
    requires a == Concluded(s, a3, user)
    ensures forall b :: b in a <==> Survives(s, a0, user, b)
    ensures forall b :: b in a ==> Survives(s, a, user, b)
  {
  }
}
