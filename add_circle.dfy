/** The guardian circle: up to five trusted contacts, an add form whose
    name and phone must not be blank, removal behind a confirmation, and a
    save that stores the circle. The five-slot cap is enforced by the
    screen: the add form opens only from an empty slot. */
module AddCircle {
  import opened Base
  import Text
  import Lists
  import Decimal
  import FakeCallSetup

  datatype Guardian = Guardian(id: string, name: string, phone: string, avatar: Option<string>, relation: string)

  /** The add form's fields. */
  datatype Form = Form(name: string, phone: string, relation: string, avatar: Option<string>)

  const MAX_GUARDIANS: nat := 5

  const RELATION_OPTIONS: seq<string> := ["PARENT", "SIBLING", "FRIEND", "SPOUSE", "OTHER"]

  const EMPTY_FORM: Form := Form("", "", "FRIEND", None)

  /** The circle a visit starts with. */
  const INITIAL_GUARDIANS: seq<Guardian> :=
    [Guardian("1", "Mom", "+91 98XXX XXXXX", Some(FakeCallSetup.DEFAULT_AVATARS[0]), "PARENT")]

  /** The Add button is enabled exactly when neither the name nor the phone
      is blank; `CompleteIffTrimmedNonEmpty` states it as the trims it is. */
  predicate FormComplete(f: Form) {
    !Text.IsBlank(f.name) && !Text.IsBlank(f.phone)
  }

  /** `handleAddGuardian`'s effect on the list: the form, untrimmed, becomes
      a new guardian at the end; an incomplete form adds nothing. */
  function AddGuardian(gs: seq<Guardian>, f: Form, id: string): (r: seq<Guardian>)
    ensures FormComplete(f) ==> r == gs + [Guardian(id, f.name, f.phone, f.avatar, f.relation)]
    ensures !FormComplete(f) ==> r == gs
  {
    if !FormComplete(f) then gs
    else gs + [Guardian(id, f.name, f.phone, f.avatar, f.relation)]
  }

  /** The form is complete exactly when both the name and the phone are
      non-empty after trimming. */
  lemma CompleteIffTrimmedNonEmpty(f: Form)
    ensures FormComplete(f) <==> Text.Trim(f.name) != "" && Text.Trim(f.phone) != ""
  {
    Text.TrimEmptyIffBlank(f.name);
    Text.TrimEmptyIffBlank(f.phone);
  }

  /** `handleRemoveGuardian`'s effect on the list. */
  function RemoveGuardian(gs: seq<Guardian>, id: string): (r: seq<Guardian>)
    ensures |r| <= |gs|
    ensures forall i | 0 <= i < |r| :: r[i].id != id
  {
    Lists.Filter(gs, (g: Guardian) => g.id != id)
  }

  /** Removing keeps exactly the guardians with another id, in order. */
  lemma RemoveKeepsOthers(gs: seq<Guardian>, id: string, g: Guardian)
    ensures g in RemoveGuardian(gs, id) <==> g in gs && g.id != id
    ensures Lists.IsSubsequence(RemoveGuardian(gs, id), gs)
  {
    Lists.FilterMembership(gs, (g: Guardian) => g.id != id, g);
    Lists.FilterIsSubsequence(gs, (g: Guardian) => g.id != id);
  }

  /** Removing a guardian just added under a new id restores the list. */
  lemma AddThenRemove(gs: seq<Guardian>, f: Form, id: string)
    requires forall i | 0 <= i < |gs| :: gs[i].id != id
    ensures RemoveGuardian(AddGuardian(gs, f, id), id) == gs
  {
    var keep := (g: Guardian) => g.id != id;
    Lists.FilterKeepsAll(gs, keep);
    if FormComplete(f) {
      Lists.FilterConcat(gs, [Guardian(id, f.name, f.phone, f.avatar, f.relation)], keep);
    }
  }

  /** `Array.from({ length: 5 - n })`: the number of empty slots shown
      (a negative length gives none). */
  function EmptySlots(n: nat): (r: nat)
    ensures r > 0 <==> n < MAX_GUARDIANS
    ensures n <= MAX_GUARDIANS ==> n + r == MAX_GUARDIANS
  {
    if n >= MAX_GUARDIANS then 0 else MAX_GUARDIANS - n
  }

  /** The screen's state: the circle, the form, which overlay is open,
      and what Save last stored. */
  datatype Circle = Circle(
    guardians: seq<Guardian>, form: Form, showAddModal: bool,
    showDeleteConfirm: Option<string>, showAvatarPicker: bool, saved: Option<seq<Guardian>>)

  const INITIAL: Circle := Circle(INITIAL_GUARDIANS, EMPTY_FORM, false, None, false, None)

  /** The cap holds, and the form is open only while a slot is free. */
  predicate Good(c: Circle) {
    |c.guardians| <= MAX_GUARDIANS && (c.showAddModal ==> |c.guardians| < MAX_GUARDIANS)
  }

  /** What the user can do on this screen, each possible only where the
      screen offers it. */
  datatype Event =
    | TapEmptySlot | EditName(name: string) | EditPhone(phone: string) | PickRelation(relation: string)
    | PickAvatar(avatar: string) | Add(id: string) | CloseAddModal
    | AskRemove(id: string) | ConfirmRemove | CancelRemove | Save

  predicate Enabled(c: Circle, e: Event) {
    match e
    case TapEmptySlot => EmptySlots(|c.guardians|) > 0 && !c.showAddModal
    case EditName(_) => c.showAddModal
    case EditPhone(_) => c.showAddModal
    case PickRelation(r) => c.showAddModal && r in RELATION_OPTIONS
    case PickAvatar(_) => c.showAddModal
    case Add(_) => c.showAddModal && FormComplete(c.form)
    case CloseAddModal => c.showAddModal
    case AskRemove(id) => exists i | 0 <= i < |c.guardians| :: c.guardians[i].id == id
    case ConfirmRemove => c.showDeleteConfirm.Some?
    case CancelRemove => c.showDeleteConfirm.Some?
    case Save => |c.guardians| > 0
  }

  function Step(c: Circle, e: Event): Circle {
    match e
    case TapEmptySlot => c.(showAddModal := true)
    case EditName(n) => c.(form := c.form.(name := n))
    case EditPhone(p) => c.(form := c.form.(phone := p))
    case PickRelation(r) => c.(form := c.form.(relation := r))
    case PickAvatar(a) => c.(form := c.form.(avatar := Some(a)), showAvatarPicker := false)
    case Add(id) =>
      if !FormComplete(c.form) then c
      else c.(guardians := AddGuardian(c.guardians, c.form, id), form := EMPTY_FORM, showAddModal := false)
    case CloseAddModal => c.(showAddModal := false)
    case AskRemove(id) => c.(showDeleteConfirm := Some(id))
    case ConfirmRemove =>
      if c.showDeleteConfirm.Some? then
        c.(guardians := RemoveGuardian(c.guardians, c.showDeleteConfirm.value), showDeleteConfirm := None)
      else c
    case CancelRemove => c.(showDeleteConfirm := None)
    case Save => c.(saved := Some(c.guardians))
  }

  function Run(c: Circle, es: seq<Event>): Circle
    decreases |es|
  {
    if |es| == 0 then c
    else Run(if Enabled(c, es[0]) then Step(c, es[0]) else c, es[1..])
  }

  lemma StepKeepsGood(c: Circle, e: Event)
    requires Good(c) && Enabled(c, e)
    ensures Good(Step(c, e))
  {
  }

  /** No sequence of taps ever shows more than five guardians. */
  lemma {:induction false} RunKeepsCap(c: Circle, es: seq<Event>)
    requires Good(c)
    ensures Good(Run(c, es)) && |Run(c, es).guardians| <= MAX_GUARDIANS
    decreases |es|
  {
    if |es| > 0 {
      if Enabled(c, es[0]) {
        StepKeepsGood(c, es[0]);
      }
      RunKeepsCap(if Enabled(c, es[0]) then Step(c, es[0]) else c, es[1..]);
    }
  }

  lemma InitialGood()
    ensures Good(INITIAL) && |INITIAL.guardians| == 1 && EmptySlots(1) == 4
  {
  }

  /** A successful add grows the circle by one and resets the form; the form
      is never submitted incomplete. */
  lemma AddResetsForm(c: Circle, id: string)
    requires Good(c) && Enabled(c, Add(id))
    ensures |Step(c, Add(id)).guardians| == |c.guardians| + 1
    ensures Step(c, Add(id)).form == EMPTY_FORM && !Step(c, Add(id)).showAddModal
    ensures var g := Step(c, Add(id)).guardians[|c.guardians|]; Text.Trim(g.name) != "" && Text.Trim(g.phone) != ""
  {
    CompleteIffTrimmedNonEmpty(c.form);
  }

  /** The screen component. */
  class CircleScreen {
    var guardians: seq<Guardian>
    var form: Form
    var showAddModal: bool
    var showDeleteConfirm: Option<string>
    var showAvatarPicker: bool
    var saved: Option<seq<Guardian>>

    function Model(): Circle
      reads this
    {
      Circle(guardians, form, showAddModal, showDeleteConfirm, showAvatarPicker, saved)
    }

    ghost predicate Valid()
      reads this
    {
      Good(Model())
    }

    constructor ()
      ensures Valid() && Model() == INITIAL
    {
      guardians := INITIAL_GUARDIANS;
      form := EMPTY_FORM;
      showAddModal, showDeleteConfirm, showAvatarPicker, saved := false, None, false, None;
    }

    /** An empty slot opens the add form. */
    method OpenAddModal()
      requires Valid() && EmptySlots(|guardians|) > 0 && !showAddModal
      modifies this
      ensures Valid() && Model() == Step(old(Model()), TapEmptySlot)
    {
      showAddModal := true;
    }

    method SetName(name: string)
      requires Valid() && showAddModal
      modifies this
      ensures Valid() && Model() == Step(old(Model()), EditName(name))
    {
      form := form.(name := name);
    }

    method SetPhone(phone: string)
      requires Valid() && showAddModal
      modifies this
      ensures Valid() && Model() == Step(old(Model()), EditPhone(phone))
    {
      form := form.(phone := phone);
    }

    method SetRelation(relation: string)
      requires Valid() && showAddModal && relation in RELATION_OPTIONS
      modifies this
      ensures Valid() && Model() == Step(old(Model()), PickRelation(relation))
    {
      form := form.(relation := relation);
    }

    method OpenAvatarPicker()
      requires Valid() && showAddModal
      modifies this`showAvatarPicker
      ensures Valid() && showAvatarPicker
    {
      showAvatarPicker := true;
    }

    method CloseAvatarPicker()
      requires Valid() && showAvatarPicker
      modifies this`showAvatarPicker
      ensures Valid() && !showAvatarPicker
    {
      showAvatarPicker := false;
    }

    /** A default avatar or an uploaded picture (as a data URL) was chosen. */
    method SetAvatar(avatar: string)
      requires Valid() && showAddModal
      modifies this
      ensures Valid() && Model() == Step(old(Model()), PickAvatar(avatar))
    {
      form := form.(avatar := Some(avatar));
      showAvatarPicker := false;
    }

    /** `handleAddGuardian` at time `now` (the new id is its decimal text). */
    method HandleAddGuardian(now: nat)
      requires Valid() && showAddModal
      modifies this
      ensures Valid() && Model() == Step(old(Model()), Add(Decimal.NatToString(now)))
    {
      if !FormComplete(form) {
        return;
      }
      guardians := AddGuardian(guardians, form, Decimal.NatToString(now));
      form := EMPTY_FORM;
      showAddModal := false;
    }

    method CloseAddModal()
      requires Valid() && showAddModal
      modifies this
      ensures Valid() && Model() == Step(old(Model()), Event.CloseAddModal)
    {
      showAddModal := false;
    }

    /** A guardian's remove button opens the confirmation. */
    method AskRemove(id: string)
      requires Valid() && exists i | 0 <= i < |guardians| :: guardians[i].id == id
      modifies this
      ensures Valid() && Model() == Step(old(Model()), Event.AskRemove(id))
    {
      showDeleteConfirm := Some(id);
    }

    /** `handleRemoveGuardian` with the id awaiting confirmation. */
    method HandleRemoveGuardian()
      requires Valid() && showDeleteConfirm.Some?
      modifies this
      ensures Valid() && Model() == Step(old(Model()), ConfirmRemove)
    {
      guardians := RemoveGuardian(guardians, showDeleteConfirm.value);
      showDeleteConfirm := None;
    }

    method CancelRemove()
      requires Valid() && showDeleteConfirm.Some?
      modifies this
      ensures Valid() && Model() == Step(old(Model()), Event.CancelRemove)
    {
      showDeleteConfirm := None;
    }

    /** `handleSaveActivate`: store the circle; disabled when it is empty. */
    method HandleSaveActivate()
      requires Valid() && |guardians| > 0
      modifies this
      ensures Valid() && Model() == Step(old(Model()), Save) && saved == Some(guardians)
    {
      saved := Some(guardians);
    }
  }
}
