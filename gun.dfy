/**
 * Fire control: the trigger press/release protocol, burst gating by fire mode,
 * the short-circuiting checks of Fire, and magazine insertion and removal with
 * the latch that makes the first magazine always chamber a round.
 *
 * Engine side effects (sounds, spawned bullets and shells, bolt motion) are
 * recorded in an event log. The bolt is abstracted to the bound it was last
 * sent to, and a bolt motion that lasts several frames is logged when it starts.
 */
module Guns {
  import opened Wrappers
  import opened Magazines

  datatype FireMode = SemiAuto | Burst2 | Burst3 | FullAuto

  /** The two bounds of the gun's bolt travel, boltMinZ and boltMaxZ. */
  datatype BoltEnd = BoltMin | BoltMax

  datatype Event =
    | Click           // the click sound of a dry fire
    | Gunshot         // the gunshot sound
    | BulletFired     // a bullet spawned at the barrel end with a forward impulse
    | ShellEjected    // a shell spawned at the chamber with an ejection impulse
    | BoltTo(end: BoltEnd)
    | MagIn           // the magazine-in sound
    | MagOut          // the magazine-out sound
    | Slide           // the slide sound

  /** Which of the gun's optional references are assigned. */
  datatype Fittings = Fittings(
    barrelEnd: bool,
    bulletPrefab: bool,
    shellPrefab: bool,
    chamberEffect: bool,
    clickAudio: bool,
    gunshotAudio: bool,
    magInAudio: bool,
    magOutAudio: bool,
    slideAudio: bool)

  /** The event of an optional reference, logged only when the reference is assigned. */
  function Play(present: bool, e: Event): seq<Event> {
    if present then [e] else []
  }

  /** The events of a shot that went off: the bolt cycle, the gunshot, the bullet and the shell. */
  function ShotEvents(f: Fittings): seq<Event> {
    [BoltTo(BoltMin), BoltTo(BoltMax)]
    + Play(f.gunshotAudio, Gunshot)
    + Play(f.bulletPrefab, BulletFired)
    + Play(f.shellPrefab && f.chamberEffect, ShellEjected)
  }

  /** FireBurst goes ahead unless Burst2 has fired 2 or Burst3 has fired 3 rounds in this pull. */
  predicate BurstAllows(mode: FireMode, burstCount: int) {
    !(mode == Burst2 && burstCount >= 2) && !(mode == Burst3 && burstCount >= 3)
  }

  /** The rounds a mode other than FullAuto fires in one burst; SemiAuto has no limit. */
  function BurstLength(mode: FireMode): Option<nat> {
    match mode
    case Burst2 => Some(2)
    case Burst3 => Some(3)
    case _ => None
  }

  datatype TriggerInput = Press | Release

  /**
   * The number of Fire calls a run of trigger events makes outside FullAuto,
   * starting at burst count `count`: a press fires and counts when BurstAllows,
   * a release resets the count.
   */
  function FireCalls(mode: FireMode, count: int, inputs: seq<TriggerInput>): nat
    requires mode != FullAuto
    decreases |inputs|
  {
    if inputs == [] then 0
    else if inputs[0] == Release then FireCalls(mode, 0, inputs[1..])
    else if BurstAllows(mode, count) then 1 + FireCalls(mode, count + 1, inputs[1..])
    else FireCalls(mode, count, inputs[1..])
  }

  /** `n` trigger presses with no release between them. */
  function Presses(n: nat): seq<TriggerInput> {
    seq(n, i => Press)
  }

  /** `n` trigger pulls, each a press followed by a release. */
  function Pulls(n: nat): seq<TriggerInput> {
    if n == 0 then [] else [Press, Release] + Pulls(n - 1)
  }

  /**
   * Presses without a release fire the rounds the burst has left: all of them
   * in SemiAuto, otherwise until the burst length is reached.
   */
  lemma {:induction false} PressesFire(mode: FireMode, count: nat, n: nat)
    requires mode != FullAuto
    decreases n
    ensures FireCalls(mode, count, Presses(n)) ==
              match BurstLength(mode)
              case None => n
              case Some(len) => if count >= len then 0 else if n <= len - count then n else len - count
  {
    if n > 0 {
      assert Presses(n)[1..] == Presses(n - 1);
      if BurstAllows(mode, count) {
        PressesFire(mode, count + 1, n - 1);
      } else {
        PressesFire(mode, count, n - 1);
      }
    }
  }

  /** Holding the trigger through any number of press events in Burst2 fires at most 2 times, Burst3 at most 3. */
  lemma BurstCap(n: nat)
    ensures FireCalls(Burst2, 0, Presses(n)) == if n <= 2 then n else 2
    ensures FireCalls(Burst3, 0, Presses(n)) == if n <= 3 then n else 3
    ensures FireCalls(SemiAuto, 0, Presses(n)) == n
  {
    PressesFire(Burst2, 0, n);
    PressesFire(Burst3, 0, n);
    PressesFire(SemiAuto, 0, n);
  }

  /**
   * Each pull (press, then release) calls Fire exactly once in every mode
   * other than FullAuto: the release resets the count before the burst
   * length can be reached.
   */
  lemma {:induction false} PullsFireOncePerPull(mode: FireMode, n: nat)
    requires mode != FullAuto
    ensures FireCalls(mode, 0, Pulls(n)) == n
  {
    if n > 0 {
      var rest := Pulls(n - 1);
      assert Pulls(n)[1..] == [Release] + rest;
      assert ([Release] + rest)[1..] == rest;
      PullsFireOncePerPull(mode, n - 1);
    }
  }

  class Gun {
    const fittings: Fittings
    var fireMode: FireMode
    var isChambered: bool
    var triggerHeld: bool
    var burstCount: int
    var firstMagInserted: bool
    /** The last magazine inserted into the socket, null after a removal. */
    var currentMagazine: Magazine?
    /** The socket's selected interactable, when it is a magazine. */
    var socket: Option<Magazine>
    var bolt: BoltEnd
    var log: seq<Event>
    /** The number of Fire calls made so far; it exists only for the proofs. */
    ghost var fireCalls: nat

    /** The magazine Fire may draw a round from. */
    function SocketMagazine(): set<object>
      reads this
    {
      if socket.Some? then {socket.value} else {}
    }

    /** The field initialisers, with Start placing the bolt at boltMinZ. */
    constructor (fittings: Fittings, fireMode: FireMode)
      ensures this.fittings == fittings && this.fireMode == fireMode
      ensures !isChambered && !triggerHeld && burstCount == 0 && !firstMagInserted
      ensures currentMagazine == null && socket == None
      ensures bolt == BoltMin && log == [] && fireCalls == 0
    {
      this.fittings := fittings;
      this.fireMode := fireMode;
      isChambered, triggerHeld, burstCount, firstMagInserted := false, false, 0, false;
      currentMagazine, socket := null, None;
      bolt, log := BoltMin, [];
      fireCalls := 0;
    }

    /**
     * The outcome of one Fire call against the state before it, by the first
     * check that fails: not chambered (a click), no barrel end (nothing), no
     * magazine or an empty one (a click and the bolt sent back), or a shot
     * that uses one round and cycles the bolt.
     */
    twostate predicate Fired()
      reads this, SocketMagazine()
    {
      && socket == old(socket)
      && if !old(isChambered) then
        && log == old(log) + Play(fittings.clickAudio, Click)
        && bolt == old(bolt) && !isChambered
        && unchanged(old(SocketMagazine()))
      else if !fittings.barrelEnd then
        && log == old(log) && bolt == old(bolt) && isChambered
        && unchanged(old(SocketMagazine()))
      else if !old(socket.Some? && socket.value.currentAmmo > 0) then
        && log == old(log) + Play(fittings.clickAudio, Click) + [BoltTo(BoltMin)]
        && bolt == BoltMin && isChambered
        && unchanged(old(SocketMagazine()))
      else
        && log == old(log) + ShotEvents(fittings)
        && bolt == BoltMax && isChambered
        && socket.value.currentAmmo == old(socket.value.currentAmmo) - 1
        && socket.value.maxAmmo == old(socket.value.maxAmmo)
        && socket.value.round1.Some? == old(socket.value.round1.Some?)
        && socket.value.round2.Some? == old(socket.value.round2.Some?)
        && socket.value.Valid()
    }

    method OnGunTriggerPressed()
      modifies this`triggerHeld, this`burstCount, this`isChambered, this`bolt, this`log, this`fireCalls, SocketMagazine()
      ensures triggerHeld
      ensures fireCalls == old(fireCalls) + if fireMode == FullAuto || BurstAllows(fireMode, old(burstCount)) then 1 else 0
      ensures fireMode == FullAuto ==> Fired() && burstCount == old(burstCount)
      ensures fireMode != FullAuto && BurstAllows(fireMode, old(burstCount)) ==>
                Fired() && burstCount == old(burstCount) + 1
      ensures fireMode != FullAuto && !BurstAllows(fireMode, old(burstCount)) ==>
                burstCount == old(burstCount) && isChambered == old(isChambered)
                && bolt == old(bolt) && log == old(log) && unchanged(SocketMagazine())
    {
      triggerHeld := true;
      if fireMode == FullAuto {
        // starting the auto-fire loop runs its first repetition at once
        var firing := AutoFireTick();
      } else {
        FireBurst();
      }
    }

    /**
     * Delivers a run of trigger events outside FullAuto, one handler call per
     * event: the Fire calls made are exactly those FireCalls counts.
     */
    method TriggerRun(inputs: seq<TriggerInput>)
      requires fireMode != FullAuto
      modifies this`triggerHeld, this`burstCount, this`isChambered, this`bolt, this`log, this`fireCalls, SocketMagazine()
      ensures fireCalls == old(fireCalls) + FireCalls(fireMode, old(burstCount), inputs)
      ensures socket == old(socket)
    {
      var i := 0;
      while i < |inputs|
        invariant 0 <= i <= |inputs|
        invariant socket == old(socket)
        invariant fireCalls - old(fireCalls) + FireCalls(fireMode, burstCount, inputs[i..])
                    == FireCalls(fireMode, old(burstCount), inputs)
      {
        assert inputs[i..][1..] == inputs[i + 1..];
        if inputs[i] == Press {
          OnGunTriggerPressed();
        } else {
          OnGunTriggerReleased();
        }
        i := i + 1;
      }
    }

    method OnGunTriggerReleased()
      modifies this`triggerHeld, this`burstCount
      ensures !triggerHeld && burstCount == 0
    {
      triggerHeld := false;
      burstCount := 0;
    }

    /**
     * A magazine entering the socket unchambers the gun; the very first one
     * always chambers a round again, later ones only when they hold ammo.
     * An interactable that is not a magazine (None) changes nothing here.
     */
    method OnMagazineInserted(item: Option<Magazine>)
      modifies this`socket, this`currentMagazine, this`isChambered, this`firstMagInserted, this`bolt, this`log
      ensures socket == item
      ensures item.None? ==>
                currentMagazine == old(currentMagazine) && isChambered == old(isChambered)
                && firstMagInserted == old(firstMagInserted) && bolt == old(bolt) && log == old(log)
      ensures item.Some? ==>
                var chambers := !old(firstMagInserted) || item.value.currentAmmo > 0;
                && currentMagazine == item.value && firstMagInserted
                && isChambered == chambers
                && bolt == (if chambers then BoltMax else old(bolt))
                && log == old(log) + Play(fittings.magInAudio, MagIn)
                          + (if chambers then [BoltTo(BoltMax)] + Play(fittings.slideAudio, Slide) else [])
    {
      socket := item;
      if item.Some? {
        var mag := item.value;
        currentMagazine := mag;
        isChambered := false;
        log := log + Play(fittings.magInAudio, MagIn);
        if !firstMagInserted {
          firstMagInserted := true;
          MoveBoltForward();
        } else if mag.HasAmmo() {
          MoveBoltForward();
        }
      }
    }

    method OnMagazineRemoved()
      modifies this`socket, this`currentMagazine, this`isChambered, this`bolt, this`log
      ensures socket == None && currentMagazine == null && !isChambered && bolt == BoltMin
      ensures log == old(log) + [BoltTo(BoltMin)] + Play(fittings.magOutAudio, MagOut)
    {
      socket := None;
      currentMagazine := null;
      isChambered := false;
      MoveBolt(BoltMin);
      log := log + Play(fittings.magOutAudio, MagOut);
    }

    /** Fires once unless the mode's burst length is used up; the count goes up even on a dry fire. */
    method FireBurst()
      modifies this`burstCount, this`isChambered, this`bolt, this`log, this`fireCalls, SocketMagazine()
      ensures fireCalls == old(fireCalls) + if BurstAllows(fireMode, old(burstCount)) then 1 else 0
      ensures BurstAllows(fireMode, old(burstCount)) ==> Fired() && burstCount == old(burstCount) + 1
      ensures !BurstAllows(fireMode, old(burstCount)) ==>
                burstCount == old(burstCount) && isChambered == old(isChambered)
                && bolt == old(bolt) && log == old(log) && unchanged(SocketMagazine())
    {
      if fireMode == Burst2 && burstCount >= 2 {
        return;
      }
      if fireMode == Burst3 && burstCount >= 3 {
        return;
      }
      Fire();
      burstCount := burstCount + 1;
    }

    /**
     * One repetition of the auto-fire loop: it fires while the trigger is held
     * in FullAuto and reports whether it did, that is, whether the loop goes on.
     */
    method AutoFireTick() returns (firing: bool)
      modifies this`isChambered, this`bolt, this`log, this`fireCalls, SocketMagazine()
      ensures firing == (triggerHeld && fireMode == FullAuto)
      ensures fireCalls == old(fireCalls) + if firing then 1 else 0
      ensures firing ==> Fired()
      ensures !firing ==>
                isChambered == old(isChambered) && bolt == old(bolt) && log == old(log)
                && unchanged(SocketMagazine())
    {
      firing := triggerHeld && fireMode == FullAuto;
      if firing {
        Fire();
      }
    }

    method Fire()
      modifies this`isChambered, this`bolt, this`log, this`fireCalls, SocketMagazine()
      ensures Fired()
      ensures fireCalls == old(fireCalls) + 1
    {
      fireCalls := fireCalls + 1;
      if !isChambered {
        log := log + Play(fittings.clickAudio, Click);
        return;
      }
      if !fittings.barrelEnd {
        return;
      }
      if !(socket.Some? && socket.value.HasAmmo()) {
        log := log + Play(fittings.clickAudio, Click);
        MoveBolt(BoltMin);
        return;
      }
      var mag := socket.value;
      var used := mag.UseRound();
      CycleBolt();
      log := log + Play(fittings.gunshotAudio, Gunshot);
      log := log + Play(fittings.bulletPrefab, BulletFired);
      EjectShell();
    }

    method EjectShell()
      modifies this`log
      ensures log == old(log) + Play(fittings.shellPrefab && fittings.chamberEffect, ShellEjected)
    {
      if !fittings.shellPrefab || !fittings.chamberEffect {
        return;
      }
      log := log + [ShellEjected];
    }

    /** The bolt goes back to boltMinZ and forward to boltMaxZ, after which the gun is chambered. */
    method CycleBolt()
      modifies this`bolt, this`log, this`isChambered
      ensures log == old(log) + [BoltTo(BoltMin), BoltTo(BoltMax)]
      ensures bolt == BoltMax && isChambered
    {
      MoveBolt(BoltMin);
      MoveBolt(BoltMax);
      isChambered := true;
    }

    /** Sends the bolt to boltMaxZ and marks the gun chambered at once. */
    method MoveBoltForward()
      modifies this`bolt, this`log, this`isChambered
      ensures log == old(log) + [BoltTo(BoltMax)] + Play(fittings.slideAudio, Slide)
      ensures bolt == BoltMax && isChambered
    {
      MoveBolt(BoltMax);
      isChambered := true;
      log := log + Play(fittings.slideAudio, Slide);
    }

    method MoveBolt(target: BoltEnd)
      modifies this`bolt, this`log
      ensures bolt == target && log == old(log) + [BoltTo(target)]
    {
      bolt := target;
      log := log + [BoltTo(target)];
    }
  }

  /**
   * The first magazine ever inserted chambers a round even when it is empty;
   * a later empty one does not, and firing from it uses no round.
   */
  method EmptyMagazinesAfterFirst(f: Fittings) returns (firstChambers: bool, secondChambers: bool, ammoAfterFire: int)
    ensures firstChambers && !secondChambers && ammoAfterFire == 0
  {
    var gun := new Gun(f, SemiAuto);
    var m1 := new Magazine(0, true, true);
    var m2 := new Magazine(0, true, true);
    gun.OnMagazineInserted(Some(m1));
    firstChambers := gun.isChambered;
    gun.OnMagazineRemoved();
    gun.OnMagazineInserted(Some(m2));
    secondChambers := gun.isChambered;
    gun.Fire();
    ammoAfterFire := m2.currentAmmo;
  }
}
