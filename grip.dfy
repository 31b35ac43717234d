/**
 * Two-hand grip bookkeeping of the gun's grab interactable: which interactor
 * holds the rear (primary) grip and which the front (secondary) grip.
 */
module Grip {
  import opened Wrappers

  /** A hand interactor, known only by its identity. */
  datatype Interactor = Interactor(id: nat)

  /** Where the grab attaches: the toolkit's own attach transform, or the rear grip point. */
  datatype AttachPoint = DefaultAttach | GripAttachPoint

  class GunGrabInteractable {
    var primaryInteractor: Option<Interactor>
    var secondaryInteractor: Option<Interactor>
    var attachTransform: AttachPoint

    constructor ()
      ensures primaryInteractor == None && secondaryInteractor == None
      ensures attachTransform == DefaultAttach
    {
      primaryInteractor, secondaryInteractor := None, None;
      attachTransform := DefaultAttach;
    }

    predicate IsTwoHanded()
      reads this
    {
      primaryInteractor.Some? && secondaryInteractor.Some?
    }

    /**
     * A select event from `interactor` (None when it is not a base interactor,
     * which is ignored). An empty primary slot takes it and moves the attach
     * point to the rear grip; otherwise it takes the empty secondary slot only
     * when it touches the front grip.
     */
    method OnSelectEntered(interactor: Option<Interactor>, touchingFrontGrip: bool)
      modifies this`primaryInteractor, this`secondaryInteractor, this`attachTransform
      ensures interactor.None? ==> unchanged(this)
      ensures interactor.Some? && old(primaryInteractor).None? ==>
                primaryInteractor == interactor && attachTransform == GripAttachPoint
                && secondaryInteractor == old(secondaryInteractor)
      ensures interactor.Some? && old(primaryInteractor).Some? ==>
                primaryInteractor == old(primaryInteractor) && attachTransform == old(attachTransform)
                && secondaryInteractor ==
                     if old(secondaryInteractor).None? && touchingFrontGrip then interactor
                     else old(secondaryInteractor)
    {
      if interactor.None? {
        return;
      }
      if primaryInteractor.None? {
        primaryInteractor := interactor;
        attachTransform := GripAttachPoint;
      } else if secondaryInteractor.None? && touchingFrontGrip {
        secondaryInteractor := interactor;
      }
    }

    /**
     * A select-exit event: clears the slot holding `interactor`, checking the
     * primary first. The other slot is left alone, so releasing the primary
     * does not promote the secondary.
     */
    method OnSelectExited(interactor: Option<Interactor>)
      modifies this`primaryInteractor, this`secondaryInteractor
      ensures interactor.None? ==> unchanged(this)
      ensures interactor.Some? && interactor == old(primaryInteractor) ==>
                primaryInteractor == None && secondaryInteractor == old(secondaryInteractor)
      ensures interactor.Some? && interactor != old(primaryInteractor) ==>
                primaryInteractor == old(primaryInteractor)
                && secondaryInteractor ==
                     if interactor == old(secondaryInteractor) then None else old(secondaryInteractor)
    {
      if interactor.None? {
        return;
      }
      if interactor == primaryInteractor {
        primaryInteractor := None;
      } else if interactor == secondaryInteractor {
        secondaryInteractor := None;
      }
    }

    /**
     * The discrete choices of FixedUpdate: whether the two-hand stabilisation
     * runs, and which interactor's pose the gun copies (the primary if there
     * is one, else the secondary, else none).
     */
    method FixedUpdate() returns (stabilised: bool, followed: Option<Interactor>)
      ensures stabilised <==> primaryInteractor.Some? && secondaryInteractor.Some?
      ensures followed.Some? <==> primaryInteractor.Some? || secondaryInteractor.Some?
      ensures primaryInteractor.Some? ==> followed == primaryInteractor
      ensures primaryInteractor.None? ==> followed == secondaryInteractor
    {
      stabilised := IsTwoHanded();
      if primaryInteractor.Some? {
        followed := primaryInteractor;
      } else if secondaryInteractor.Some? {
        followed := secondaryInteractor;
      } else {
        followed := None;
      }
    }
  }

  /**
   * A second hand that grabs the front grip and then the first hand letting go
   * leave the gun held by the secondary slot only, which FixedUpdate follows.
   */
  method ReleasePrimaryKeepsSecondary(rear: Interactor, front: Interactor)
    returns (primary: Option<Interactor>, secondary: Option<Interactor>, followed: Option<Interactor>)
    ensures primary == None && secondary == Some(front) && followed == Some(front)
  {
    var gun := new GunGrabInteractable();
    gun.OnSelectEntered(Some(rear), false);
    gun.OnSelectEntered(Some(front), true);
    gun.OnSelectExited(Some(rear));
    var stabilised;
    stabilised, followed := gun.FixedUpdate();
    primary, secondary := gun.primaryInteractor, gun.secondaryInteractor;
  }
}
