# VR firearm gameplay logic in Dafny

This project models the discrete gameplay logic of a virtual-reality firearm as small state machines and proves properties of them. The firearm has five parts:

- **Fire control (`Guns.Gun`).** It covers the trigger press/release protocol, burst gating by fire mode, and the four-way check chain of `Fire`. It also handles magazine insertion and removal, including the latch that makes the first magazine ever inserted chamber a round.
- **The magazine's round counter (`Magazines.Magazine`).**
- **The bolt rack mechanism (`Chamber.ChamberMechanism`).** It has a back stroke guarded against re-entry and an unguarded forward stroke.
- **Two-hand grip bookkeeping (`Grip.GunGrabInteractable`).**
- **The view controller (`Views.ViewController`).** It dispatches on the view mode and has a snap-turn latch and mode accessors.

Each source class is a Dafny class, and each event handler is a method on it. The side effects of the engine are entries appended to the gun's `log`:

- sounds (`Click`, `Gunshot`, `MagIn`, `MagOut`, `Slide`);
- spawned objects (`BulletFired`, `ShellEjected`);
- bolt motion (`BoltTo(BoltMin)`, `BoltTo(BoltMax)`).

Each handler's contract states exactly which entries it appends. An optional reference of the gun (barrel end, prefabs, audio sources) is a flag in `Fittings`. An event that needs a reference is logged only when its flag is set, as the source's null checks do. A coroutine runs to completion inside the method that starts it. A bolt motion is logged when it starts, and the gun's bolt is the bound it was last sent to.

Properties about runs of events are proved as lemmas over small pure step functions. Here, a run is a sequence of events: trigger presses, stick readings, or repeated `UseRound` calls. The single-step functions specify the class methods, and a second function iterates each step over a run:

- `ConsumeOne` specifies `Magazine.UseRound`. `ConsumeMany` iterates it, and the loop `UseRounds` is proved to end where `ConsumeMany` says.
- `BurstAllows` specifies `FireBurst` and `OnGunTriggerPressed`. `FireCalls` counts the Fire calls of a run of presses and releases. The loop `Gun.TriggerRun` is proved to make that many Fire calls, counted by the ghost field `fireCalls`.
- `SnapFrame` specifies `HandleSnapView`. `SnapFrames` iterates it, and the loop `HandleSnapViewFrames` is proved to end where `SnapFrames` says.

Coordinates and stick values are `real`. The per-frame step of a bolt stroke (frame time times speed) is a positive `real` parameter. MoveTowards has the engine's meaning: it arrives at the target when the target is within one step, and otherwise moves one step towards it. `Mathf.Sign` counts zero as positive.

Three queries carry no contract of their own, because their bodies are their meaning:

- `Magazine.HasAmmo` (`currentAmmo > 0`), used by `Fire` and by `OnMagazineInserted`;
- `GunGrabInteractable.IsTwoHanded` (both slots occupied), whose meaning `FixedUpdate` states;
- `ViewController.GetViewMode`, tied to `SetViewMode` by that method's contract.

## Behaviour of the source worth knowing

- **Burst modes make one Fire call per trigger pull.** `OnGunTriggerPressed` calls `FireBurst` once per press (Assets/Scripts/Gun.cs:73-85). `FireBurst` fires once and increments `burstCount` (Assets/Scripts/Gun.cs:121-128). A release resets `burstCount` (Assets/Scripts/Gun.cs:87-91). So Burst2 and Burst3 make one Fire call per press-hold-release cycle, as SemiAuto does. The burst limit only stops presses that arrive without a release between them. `PullsFireOncePerPull` proves one Fire call per pull, and `BurstCap` proves the limit on presses without a release.
- **The gun is chambered before the bolt arrives.** `MoveBoltForward` starts the forward bolt motion and then sets `isChambered` at once (Assets/Scripts/Gun.cs:228-233). The motion's first step runs before the flag is set, and the remaining steps run in later frames afterwards. The model sets the flag together with the bolt's target.
- **The log records both ends of a bolt cycle when the cycle starts.** A coroutine runs to completion in the model. So in `Fire` the entry `BoltTo(BoltMax)` comes before `Gunshot`, although in the source the forward stroke happens frames after the shot sound.

## Model

| member | source | states |
|---|---|---|
| `Motion.Sign` | Assets/Scripts/ViewController.cs:79 | The sign is ±1, and it is 1 iff x ≥ 0 (zero counting as positive), so sign times x is \|x\|. |
| `Motion.MoveTowards` | Assets/Scripts/ChamberMechanism.cs:45-46 | With a non-negative step, the result moves at most one step and stays between the current value and the target (never overshoots). It equals the target when the target is within one step. Otherwise it moves exactly one step closer. |
| `Motion.FramesLeftStep` | Assets/Scripts/ChamberMechanism.cs:43-47 | A stroke of positive length needs at least one frame, and a full step removes exactly one frame. This is why the stroke loops end. |
| `Magazines.ConsumeManyFrom` | Assets/Scripts/Magazine.cs:30-39 | From a count of ammo ≥ 0, k UseRound calls leave max(0, ammo − k) rounds, and their returns sum to min(k, ammo). From full this is maxAmmo. |
| `Magazines.ConsumeManyNonNegative` | Assets/Scripts/Magazine.cs:30-39 | Starting from a non-negative count, the count never becomes negative however many calls are made. |
| `Magazines.ConsumeManyAtZero` | Assets/Scripts/Magazine.cs:32-38 | At or below zero, any number of calls changes nothing and hands out nothing. |
| `Magazines.HasAmmoAfterUses` | Assets/Scripts/Magazine.cs:25-39 | After k ≤ maxAmmo calls on a full magazine, HasAmmo holds iff k < maxAmmo. |
| `Magazines.UseRounds` | Assets/Scripts/Magazine.cs:30-39 | k successive UseRound calls on one magazine leave the count, and sum their returns, as ConsumeMany says. The visibility invariant is kept. |
| `Magazines.Magazine.constructor` | Assets/Scripts/Magazine.cs:12-23 | Awake: currentAmmo == maxAmmo. Each assigned round object shows iff the count is above 1 (round1) or above 0 (round2). |
| `Magazines.Magazine.HasAmmo` | Assets/Scripts/Magazine.cs:25-28 | No contract of its own: the body is the query, currentAmmo > 0. Fire and OnMagazineInserted use it. |
| `Magazines.Magazine.UseRound` | Assets/Scripts/Magazine.cs:30-39 | With ammo > 0: the count drops by exactly one, the call returns 1, and round visibility is updated. At zero or below: it returns 0 and nothing changes. A non-negative count stays non-negative, and the visibility invariant is kept. |
| `Magazines.Magazine.UpdateRoundsVisibility` | Assets/Scripts/Magazine.cs:41-51 | An assigned round1 is set active iff the count is above 1, an assigned round2 iff it is above 0. Unassigned ones stay unassigned. |
| `Chamber.ChamberMechanism.constructor` | Assets/Scripts/ChamberMechanism.cs:8-14 | The bounds and bolt position are as given. The bolt is not racked and not held. |
| `Chamber.ChamberMechanism.RackBolt` | Assets/Scripts/ChamberMechanism.cs:34-38 | While a back stroke is in progress (isBeingHeld), nothing changes. Otherwise the back stroke runs: z ends at min(z, minZ), racked and not held. x and y never change. |
| `Chamber.ChamberMechanism.AutoRack` | Assets/Scripts/ChamberMechanism.cs:69-73 | The same contract as RackBolt. |
| `Chamber.ChamberMechanism.MoveBoltBack` | Assets/Scripts/ChamberMechanism.cs:40-51 | isBeingHeld stays set through every frame (loop invariant). Each frame moves z at most one step towards minZ without passing it. The stroke ends with z exactly minZ, isBeingHeld false and isRacked true. If z was already at or behind minZ, it completes at once with z unchanged and isRacked true. Only z and the two flags change. |
| `Chamber.ChamberMechanism.ReleaseBolt` | Assets/Scripts/ChamberMechanism.cs:53-56 | Runs the forward stroke with no guard: z ends at max(z, maxZ) and the bolt is no longer racked. |
| `Chamber.ChamberMechanism.MoveBoltForward` | Assets/Scripts/ChamberMechanism.cs:58-67 | Each frame moves z at most one step towards maxZ without passing it. The stroke ends with z exactly maxZ (or unchanged if already beyond it) and isRacked false. isBeingHeld, x and y are untouched. |
| `Guns.PressesFire` | Assets/Scripts/Gun.cs:121-128 | n presses without a release, from burst count c, make n Fire calls in SemiAuto. In Burst2 and Burst3 they make min(n, len − c) calls, where len is the burst length, and none once c ≥ len. |
| `Guns.BurstCap` | Assets/Scripts/Gun.cs:121-128 | From a reset count, presses without a release fire at most 2 times in Burst2 and at most 3 times in Burst3. SemiAuto never refuses. |
| `Guns.PullsFireOncePerPull` | Assets/Scripts/Gun.cs:73-91 | Outside FullAuto, n press-then-release pulls make exactly n Fire calls, because each release resets burstCount to 0. |
| `Guns.Gun.constructor` | Assets/Scripts/Gun.cs:14-47 | The field initialisers: not chambered, trigger up, burstCount 0, no magazine seen, socket empty. Start places the bolt at boltMinZ, and the log is empty. |
| `Guns.Gun.Fire` | Assets/Scripts/Gun.cs:139-188 | The outcome, decided by the first check that fails. Not chambered: only a click is logged, and ammo, bolt and chamber are unchanged. No barrel end: nothing at all happens. No magazine, or an empty one: a click and a bolt-to-min are logged, no round is used, and the gun stays chambered. Otherwise: exactly one round is used (the magazine's UseRound outcome, which keeps its round objects assigned), the log gets bolt min then max, the gunshot, the bullet and the shell, and the gun stays chambered. Only isChambered, the bolt, the log and the socket magazine may change. Each call counts one Fire call. |
| `Guns.Gun.EjectShell` | Assets/Scripts/Gun.cs:201-218 | A shell is logged iff both the shell prefab and the chamber effect are assigned. |
| `Guns.Gun.CycleBolt` | Assets/Scripts/Gun.cs:220-226 | The bolt is sent to min, then to max, and the gun ends chambered. |
| `Guns.Gun.MoveBoltForward` | Assets/Scripts/Gun.cs:228-233 | The bolt is sent to max and the gun is chambered at once. The slide sound is logged if assigned. |
| `Guns.Gun.MoveBolt` | Assets/Scripts/Gun.cs:235-246 | The bolt ends at the target, and one bolt motion to it is logged. |
| `Guns.Gun.FireBurst` | Assets/Scripts/Gun.cs:121-128 | Refuses, changing nothing, in Burst2 with burstCount ≥ 2 or in Burst3 with burstCount ≥ 3. It never refuses in SemiAuto. Otherwise it fires once (the Fire outcome, one Fire call) and increments burstCount, even on a dry fire. |
| `Guns.Gun.AutoFireTick` | Assets/Scripts/Gun.cs:130-137 | One repetition of the auto-fire loop. It fires (one Fire call) iff the trigger is held and the mode is FullAuto, and otherwise changes nothing. It reports whether the loop continues. |
| `Guns.Gun.OnGunTriggerPressed` | Assets/Scripts/Gun.cs:73-85 | triggerHeld becomes true. In FullAuto the auto loop's first repetition fires and burstCount is untouched. In other modes it behaves as FireBurst. It makes one Fire call iff the mode is FullAuto or BurstAllows holds. |
| `Guns.Gun.TriggerRun` | Assets/Scripts/Gun.cs:73-91 | A run of presses and releases outside FullAuto, delivered to the two handlers in order, makes exactly FireCalls Fire calls from the starting burstCount. The socket is unchanged. |
| `Guns.Gun.OnGunTriggerReleased` | Assets/Scripts/Gun.cs:87-91 | triggerHeld becomes false and burstCount becomes 0. Nothing else changes. |
| `Guns.Gun.OnMagazineInserted` | Assets/Scripts/Gun.cs:93-111 | The socket holds the item. For a magazine: currentMagazine becomes it and firstMagInserted latches true. The gun ends chambered iff this is the first magazine ever or it has ammo; if so, the bolt goes to max and the slide sound follows the mag-in sound. A non-magazine changes nothing else. |
| `Guns.Gun.OnMagazineRemoved` | Assets/Scripts/Gun.cs:113-119 | The socket and currentMagazine become empty, the gun is unchambered, and the bolt goes to min. The mag-out sound follows the bolt event. |
| `Guns.EmptyMagazinesAfterFirst` | Assets/Scripts/Gun.cs:93-111 | An empty first magazine chambers, and a later empty magazine does not. Firing from the empty one uses no round. |
| `Grip.GunGrabInteractable.constructor` | Assets/Scripts/VRGun.cs:19-20 | Both grip slots start empty. |
| `Grip.GunGrabInteractable.OnSelectEntered` | Assets/Scripts/VRGun.cs:42-58 | A non-base interactor is ignored. An empty primary slot takes the interactor and sets the attach point to the rear grip. Otherwise the interactor becomes secondary only if the secondary slot is empty and it touches the front grip. Otherwise both slots are unchanged. |
| `Grip.GunGrabInteractable.OnSelectExited` | Assets/Scripts/VRGun.cs:62-77 | A non-base interactor is ignored. Only the slot holding the interactor is cleared, checking primary first. The other slot is untouched, so the secondary is not promoted. |
| `Grip.GunGrabInteractable.IsTwoHanded` | Assets/Scripts/VRGun.cs:22 | No contract of its own: the body is the query, both slots held. FixedUpdate's contract states its meaning. |
| `Grip.GunGrabInteractable.FixedUpdate` | Assets/Scripts/VRGun.cs:79-96 | Stabilisation runs iff both slots are held (isTwoHanded). The gun follows the primary if present, else the secondary, else nothing. |
| `Grip.ReleasePrimaryKeepsSecondary` | Assets/Scripts/VRGun.cs:67-95 | After a rear grab, a front grab and the release of the rear hand, only the secondary slot is held, and the gun follows it. |
| `Views.HeldWhileDisarmed` | Assets/Scripts/ViewController.cs:77-86 | With the latch disarmed, a stick held at or beyond the threshold changes neither yaw nor latch, for any number of frames. |
| `Views.HeldStickSnapsOnce` | Assets/Scripts/ViewController.cs:77-86 | Holding the stick at or beyond the threshold for any number of frames snaps once when the latch was armed: yaw turns by sign(x₀)·snapAngle and the latch is cleared. When the latch was disarmed, it does not snap at all. |
| `Views.SnapThenRearm` | Assets/Scripts/ViewController.cs:73-87 | A held deflection followed by a frame inside the threshold snaps once and leaves the latch re-armed. |
| `Views.SnapFramesAppend` | Assets/Scripts/ViewController.cs:73-87 | One more frame of snap turning is one more SnapFrame step after the earlier frames. |
| `Views.ViewController.constructor` | Assets/Scripts/ViewController.cs:15-30 | The mode and the snap settings are as given, and the snap latch starts armed. |
| `Views.ViewController.Update` | Assets/Scripts/ViewController.cs:52-66 | The effect of the current mode's handler and no other: in Snap one SnapFrame, in Smooth a turn by x·speed·dt with the latch untouched, and in FOV the latch untouched. The mode itself is not changed. |
| `Views.ViewController.HandleSmoothView` | Assets/Scripts/ViewController.cs:67-72 | Yaw turns by x · smoothRotationSpeed · dt. |
| `Views.ViewController.HandleSnapView` | Assets/Scripts/ViewController.cs:73-87 | When \|x\| reaches the threshold and the latch is armed: yaw turns by sign(x)·snapAngle and the latch clears. When \|x\| is beyond the threshold and the latch is disarmed: nothing changes. When \|x\| is inside the threshold: the latch re-arms and yaw is unchanged. |
| `Views.ViewController.HandleSnapViewFrames` | Assets/Scripts/ViewController.cs:73-87 | Successive Snap-mode frames, one stick reading each, leave the latch and yaw where SnapFrames says. |
| `Views.ViewController.GetViewMode` | Assets/Scripts/ViewController.cs:130-133 | No contract of its own: the body is the query, the current mode. SetViewMode's contract ties it to the mode just set. |
| `Views.ViewController.SetViewMode` | Assets/Scripts/ViewController.cs:121-125 | GetViewMode returns the mode just set. No other method changes the mode. |

## Left out

- Projectile and shell spawning, impulses and the random shell torque (Assets/Scripts/Gun.cs:168-184, :201-218): engine physics. They appear only as the `BulletFired` and `ShellEjected` log entries. Whether the spawned object has a rigid body changes no logged event.
- The muzzle-flash and chamber-smoke toggle (Assets/Scripts/Gun.cs:190-199), and every `WaitForSeconds` delay, including the auto-fire interval 60/roundsPerMinute: timing. Because of this, no property about shots per unit of time is stated.
- Interleaving of several coroutines: repeated auto-fire loops started by repeated presses, overlapping bolt motions, a release during a back stroke. Each sequence runs to completion in the method that starts it. So the model does not capture, for example, a magazine removed during the post-fire bolt cycle. In the source, `CycleBolt` would still set `isChambered` when it finishes. For the same reason, `isBeingHeld` is true only inside `MoveBoltBack`, and the guard of `RackBolt` and `AutoRack` only matters for a state where a stroke is in progress.
- `Mathf.Approximately` in `Gun.MoveBolt` and the gun bolt's coordinate: the gun's bolt is the bound it was last sent to.
- `Gun.canFire`: never cleared, so its check in `Fire` is dropped.
- Listener registration in `Gun.Start`/`OnDestroy`, the activation of the effects in `Start`, and playing audio: the sounds are log entries.
- Chamber.ChamberMechanism.MoveBoltBack: the per-frame step is one positive constant per stroke, while in the source it is frame time times speed and varies per frame. A non-positive speed would make the source's loop never end, so the model requires a positive step. `ChamberMechanism.Start`/`FixedUpdate` (following the gun's transform) are transform copies.
- `Magazine.Awake`'s base call and attach-point assignment: interaction-toolkit plumbing. An assigned round object is a `Some(active flag)`.
- `GunGrabInteractable.Awake` (error logging, movement type), `ApplyTwoHandedStabilization` (quaternion slerp), the pose copy in `FixedUpdate`, and `ApplyRecoil`: rotation math and physics. Touching the front grip collider (`IsTouchingCollider`) is a boolean input. The toolkit's own `base.OnSelectEntered`/`OnSelectExited`, which the source skips for a non-base interactor, are not modelled.
- Views.ViewController.Update: the FOV handler (Assets/Scripts/ViewController.cs:88-115) is not modelled. In FOV mode the model lets yaw take any value and promises only that the snap latch is untouched. The input action's enable/disable and the reading of the stick (the stick x and the frame time are parameters), and the `Debug.Log` in `SetViewMode`, are plumbing.
- Floating point: all coordinates, angles and stick values are unbounded reals.
- Assets/Bullet.cs (ricochet geometry and lifetime), Assets/Scripts/ControllerFollower.cs, Assets/Scripts/HeadsetViewController.cs, Assets/InstantAttachToSocket.cs, Assets/Scripts/CoroutineHandler.cs, Assets/Scripts/ShellCasing.cs and Assets/Target.cs are not part of this model. They are float geometry, transform copies, scene-graph plumbing and collision sounds.
