/** The medical ID card: profile fields edited one at a time in a modal
    (list fields as comma-separated text), emergency contacts that can be
    called, and the payload of the card's QR code. */
module MedicalID {
  import opened Base
  import Text
  import Lists

  datatype MedicalData = MedicalData(
    name: string, id: string, dob: string, bloodGroup: string,
    allergies: seq<string>, conditions: seq<string>, medications: seq<string>,
    avatar: Option<string>)

  datatype IceContact = IceContact(id: string, name: string, phone: string, initial: string)

  /** The fields the edit modal can change. */
  datatype Field = Name | Dob | BloodGroupField | AllergiesField | ConditionsField | MedicationsField

  const INITIAL_DATA: MedicalData := MedicalData(
    "User", "#DURGA-8821", "12 Oct 1995", "O+",
    ["Penicillin", "Peanuts"], ["Asthma", "Diabetes"], ["Insulin"],
    Some("https://images.unsplash.com/photo-1544005313-94ddf0286df2?w=200&h=200&fit=crop&crop=faces"))

  const INITIAL_ICE: seq<IceContact> := [
    IceContact("1", "Mom", "+91 98765 43210", "M"),
    IceContact("2", "Dad", "+91 91234 56789", "D")
  ]

  const BLOOD_GROUPS: seq<string> := ["A+", "A-", "B+", "B-", "AB+", "AB-", "O+", "O-"]

  const LIST_SEPARATOR: string := ", "

  /** An item `saveEdit` can produce: not empty, trimmed, without a comma. */
  predicate CleanItem(s: string) {
    s != "" && Text.IsTrimmed(s) && ',' !in s
  }

  predicate CleanList(xs: seq<string>) {
    forall i | 0 <= i < |xs| :: CleanItem(xs[i])
  }

  /** Trimming never introduces a character. */
  lemma TrimKeepsOut(s: string, c: char)
    requires c !in s
    ensures c !in Text.Trim(s)
  {
    var t := Text.TrimStart(s);
    var r := Text.TrimEnd(t);
    assert forall k | 0 <= k < |r| :: r[k] == t[k] == s[|s| - |t| + k];
  }

  /** `.map(s => s.trim()).filter(Boolean)`: trim every piece and drop the
      empty ones. */
  function CleanPieces(ps: seq<string>): (r: seq<string>)
    requires forall i | 0 <= i < |ps| :: ',' !in ps[i]
    ensures CleanList(r)
    ensures |r| <= |ps|
  {
    if |ps| == 0 then []
    else
      var t := Text.Trim(ps[0]);
      TrimKeepsOut(ps[0], ',');
      (if t != "" then [t] else []) + CleanPieces(ps[1..])
  }

  /** The list a comma-separated text stands for. */
  function ParseList(s: string): (r: seq<string>)
    ensures CleanList(r)
  {
    CleanPieces(Text.Split(s, ','))
  }

  /** One step of `CleanPieces`. */
  lemma CleanPiecesCons(p: string, ps: seq<string>)
    requires ',' !in p && forall i | 0 <= i < |ps| :: ',' !in ps[i]
    ensures CleanPieces([p] + ps) == (if Text.Trim(p) != "" then [Text.Trim(p)] else []) + CleanPieces(ps)
  {
    assert ([p] + ps)[0] == p && ([p] + ps)[1..] == ps;
  }

  /** One step of `Split` on a string that starts with a space. */
  lemma SplitAfterSpace(j: string)
    ensures Text.Split([' '] + j, ',') == [[' '] + Text.Split(j, ',')[0]] + Text.Split(j, ',')[1..]
  {
    assert ([' '] + j)[1..] == j;
  }

  /** A space after a comma does not survive the trim. */
  lemma CleanAfterSpace(j: string)
    ensures CleanPieces(Text.Split([' '] + j, ',')) == CleanPieces(Text.Split(j, ','))
  {
    var ps := Text.Split(j, ',');
    var head := [' '] + ps[0];
    SplitAfterSpace(j);
    assert ',' !in head;
    calc {
      CleanPieces(Text.Split([' '] + j, ','));
      CleanPieces([head] + ps[1..]);
      { CleanPiecesCons(head, ps[1..]); }
      (if Text.Trim(head) != "" then [Text.Trim(head)] else []) + CleanPieces(ps[1..]);
      { Text.TrimSkipsLeadingWhitespace(' ', ps[0]); }
      (if Text.Trim(ps[0]) != "" then [Text.Trim(ps[0])] else []) + CleanPieces(ps[1..]);
      { CleanPiecesCons(ps[0], ps[1..]); assert ps == [ps[0]] + ps[1..]; }
      CleanPieces(ps);
    }
  }

  /** One step of joining with `", "`. */
  lemma JoinCons(xs: seq<string>)
    requires |xs| >= 2
    ensures Text.Join(xs, LIST_SEPARATOR) == xs[0] + [','] + ([' '] + Text.Join(xs[1..], LIST_SEPARATOR))
  {
  }

  /** A clean item, a comma and a space in front of more text parse as that
      item in front of what the text parses to. */
  lemma ParseCons(x: string, j: string)
    requires CleanItem(x)
    ensures ParseList(x + [','] + ([' '] + j)) == [x] + ParseList(j)
  {
    var ps := Text.Split([' '] + j, ',');
    Text.SplitAtFirstSeparator(x, ',', [' '] + j);
    Text.TrimOfTrimmed(x);
    CleanPiecesCons(x, ps);
    CleanAfterSpace(j);
  }

  /** The empty text parses as the empty list. */
  lemma ParseEmpty()
    ensures ParseList("") == []
  {
    assert Text.Split("", ',') == [""];
    CleanPiecesCons("", []);
  }

  /** A single clean item parses as itself. */
  lemma ParseSingle(x: string)
    requires CleanItem(x)
    ensures ParseList(x) == [x]
  {
    Text.SplitWithoutSeparator(x, ',');
    Text.TrimOfTrimmed(x);
    CleanPiecesCons(x, []);
  }

  /** `parse(xs.join(', ')) == xs` for every list of clean items: the text
      the modal is opened with parses back to the list it shows. */
  lemma {:induction false} ParseJoinRoundTrip(xs: seq<string>)
    requires CleanList(xs)
    ensures ParseList(Text.Join(xs, LIST_SEPARATOR)) == xs
    decreases |xs|, 1
  {
    if |xs| == 0 {
      ParseEmpty();
    } else if |xs| == 1 {
      ParseSingle(xs[0]);
    } else {
      ParseJoinCons(xs);
    }
  }

  /** The round trip for two or more items, from the round trip of the tail. */
  lemma {:induction false} ParseJoinCons(xs: seq<string>)
    requires |xs| >= 2 && CleanList(xs)
    ensures ParseList(Text.Join(xs, LIST_SEPARATOR)) == xs
    decreases |xs|, 0
  {
    JoinCons(xs);
    ParseCons(xs[0], Text.Join(xs[1..], LIST_SEPARATOR));
    ParseJoinRoundTrip(xs[1..]);
    assert xs == [xs[0]] + xs[1..];
  }

  /** Parsing is idempotent through the editor: whatever was typed, opening
      the field again and saving it unchanged keeps the list. */
  lemma ParseListIdempotent(s: string)
    ensures ParseList(Text.Join(ParseList(s), LIST_SEPARATOR)) == ParseList(s)
  {
    ParseJoinRoundTrip(ParseList(s));
  }

  /** The text `openEditModal` is given for a field. */
  function CurrentText(d: MedicalData, f: Field): string {
    match f
    case Name => d.name
    case Dob => d.dob
    case BloodGroupField => d.bloodGroup
    case AllergiesField => Text.Join(d.allergies, LIST_SEPARATOR)
    case ConditionsField => Text.Join(d.conditions, LIST_SEPARATOR)
    case MedicationsField => Text.Join(d.medications, LIST_SEPARATOR)
  }

  /** `saveEdit`'s effect on the data: text fields take the typed text as it
      is, list fields its parse; with no field selected nothing changes. No
      other field ever changes. */
  function EditedData(d: MedicalData, field: Option<Field>, temp: string): (r: MedicalData)
    ensures field.None? ==> r == d
    ensures r.id == d.id && r.avatar == d.avatar
    ensures field == Some(Name) ==> r == d.(name := temp)
    ensures field == Some(Dob) ==> r == d.(dob := temp)
    ensures field == Some(BloodGroupField) ==> r == d.(bloodGroup := temp)
    ensures field == Some(AllergiesField) ==> r == d.(allergies := ParseList(temp))
    ensures field == Some(ConditionsField) ==> r == d.(conditions := ParseList(temp))
    ensures field == Some(MedicationsField) ==> r == d.(medications := ParseList(temp))
  {
    match field
    case None => d
    case Some(Name) => d.(name := temp)
    case Some(Dob) => d.(dob := temp)
    case Some(BloodGroupField) => d.(bloodGroup := temp)
    case Some(AllergiesField) => d.(allergies := ParseList(temp))
    case Some(ConditionsField) => d.(conditions := ParseList(temp))
    case Some(MedicationsField) => d.(medications := ParseList(temp))
  }

  /** The lists of the card are always clean. */
  predicate GoodData(d: MedicalData) {
    CleanList(d.allergies) && CleanList(d.conditions) && CleanList(d.medications)
  }

  lemma SaveEditKeepsGood(d: MedicalData, field: Option<Field>, temp: string)
    requires GoodData(d)
    ensures GoodData(EditedData(d, field, temp))
  {
  }

  /** Opening a field's editor and saving without typing changes nothing. */
  lemma OpenThenSaveIsNoChange(d: MedicalData, f: Field)
    requires GoodData(d)
    ensures EditedData(d, Some(f), CurrentText(d, f)) == d
  {
    match f
    case AllergiesField => ParseJoinRoundTrip(d.allergies);
    case ConditionsField => ParseJoinRoundTrip(d.conditions);
    case MedicationsField => ParseJoinRoundTrip(d.medications);
    case _ =>
  }

  lemma InitialGood()
    ensures GoodData(INITIAL_DATA)
  {
    assert CleanItem("Penicillin") && CleanItem("Peanuts") && CleanItem("Asthma");
    assert CleanItem("Diabetes") && CleanItem("Insulin");
  }

  /** The number `handleCall` dials: the phone with every whitespace
      character removed. */
  function DialNumber(phone: string): (r: string)
    ensures |r| <= |phone|
    ensures forall i | 0 <= i < |r| :: !Text.IsWhitespace(r[i])
  {
    Lists.Filter(phone, (c: char) => !Text.IsWhitespace(c))
  }

  /** `tel:` followed by the dialled number. */
  function TelLink(phone: string): string {
    "tel:" + DialNumber(phone)
  }

  /** Only whitespace is removed: every other character stays, in order,
      and the removed ones are exactly the whitespace. */
  lemma DialNumberKeepsDigits(phone: string, c: char)
    ensures c in DialNumber(phone) <==> c in phone && !Text.IsWhitespace(c)
    ensures Lists.IsSubsequence(DialNumber(phone), phone)
    ensures |DialNumber(phone)| + |Lists.Filter(phone, (x: char) => Text.IsWhitespace(x))| == |phone|
  {
    var keep := (c: char) => !Text.IsWhitespace(c);
    Lists.FilterMembership(phone, keep, c);
    Lists.FilterIsSubsequence(phone, keep);
    Lists.FilterPartition(phone, keep, (x: char) => Text.IsWhitespace(x));
  }

  /** What the QR code carries for an emergency contact. */
  datatype IcePayload = IcePayload(name: string, phone: string)

  /** The QR payload, before it is serialised as JSON. */
  datatype QrPayload = QrPayload(
    name: string, id: string, bloodGroup: string,
    allergies: seq<string>, conditions: seq<string>, medications: seq<string>,
    iceContacts: seq<IcePayload>)

  function IcePayloads(cs: seq<IceContact>): (r: seq<IcePayload>)
    ensures |r| == |cs|
    ensures forall i | 0 <= i < |cs| :: r[i] == IcePayload(cs[i].name, cs[i].phone)
  {
    if |cs| == 0 then [] else [IcePayload(cs[0].name, cs[0].phone)] + IcePayloads(cs[1..])
  }

  /** `generateQRData`. */
  function QrData(d: MedicalData, cs: seq<IceContact>): QrPayload {
    QrPayload(d.name, d.id, d.bloodGroup, d.allergies, d.conditions, d.medications, IcePayloads(cs))
  }

  /** The payload leaves out the date of birth, the photo, and each
      contact's id and initial: changing those never changes the code. */
  lemma QrDataOmits(d: MedicalData, cs: seq<IceContact>, dob: string, avatar: Option<string>, cs2: seq<IceContact>)
    requires |cs2| == |cs|
    requires forall i | 0 <= i < |cs| :: cs2[i].name == cs[i].name && cs2[i].phone == cs[i].phone
    ensures QrData(d.(dob := dob, avatar := avatar), cs2) == QrData(d, cs)
  {
    assert IcePayloads(cs2) == IcePayloads(cs);
  }

  /** The payload carries the card's fields unchanged, and one entry per
      contact in order. */
  lemma QrDataCarries(d: MedicalData, cs: seq<IceContact>)
    ensures QrData(d, cs).name == d.name && QrData(d, cs).id == d.id && QrData(d, cs).bloodGroup == d.bloodGroup
    ensures QrData(d, cs).allergies == d.allergies && QrData(d, cs).conditions == d.conditions
    ensures QrData(d, cs).medications == d.medications
    ensures |QrData(d, cs).iceContacts| == |cs|
    ensures forall i | 0 <= i < |cs| :: QrData(d, cs).iceContacts[i].phone == cs[i].phone
  {
  }

  /** The screen component. `dialled` is the last `tel:` link navigated to. */
  class MedicalScreen {
    const hasVibrate: bool
    var data: MedicalData
    var iceContacts: seq<IceContact>
    var showEditModal: bool
    var showQRModal: bool
    var editField: Option<Field>
    var tempValue: string
    var dialled: Option<string>
    var haptics: nat

    ghost predicate Valid()
      reads this
    {
      GoodData(data)
    }

    constructor (hasVibrate: bool)
      ensures Valid() && this.hasVibrate == hasVibrate
      ensures data == INITIAL_DATA && iceContacts == INITIAL_ICE
      ensures !showEditModal && !showQRModal && editField == None && tempValue == ""
      ensures dialled == None && haptics == 0
    {
      this.hasVibrate := hasVibrate;
      data, iceContacts := INITIAL_DATA, INITIAL_ICE;
      showEditModal, showQRModal := false, false;
      editField, tempValue := None, "";
      dialled, haptics := None, 0;
      InitialGood();
    }

    /** A field's edit button: the modal opens on that field's current text. */
    method OpenEditModal(f: Field)
      requires Valid()
      modifies this`editField, this`tempValue, this`showEditModal
      ensures Valid() && editField == Some(f) && tempValue == CurrentText(data, f) && showEditModal
    {
      editField := Some(f);
      tempValue := CurrentText(data, f);
      showEditModal := true;
    }

    /** The floating edit button opens the modal on whatever field and text
      were left from last time. */
    method ReopenEditModal()
      requires Valid()
      modifies this`showEditModal
      ensures Valid() && showEditModal
    {
      showEditModal := true;
    }

    method CloseEditModal()
      requires Valid() && showEditModal
      modifies this`showEditModal
      ensures Valid() && !showEditModal
    {
      showEditModal := false;
    }

    /** Typing into the text input. */
    method SetTempValue(v: string)
      requires Valid() && showEditModal
      modifies this`tempValue
      ensures Valid() && tempValue == v
    {
      tempValue := v;
    }

    /** A blood-group button of the picker. */
    method PickBloodGroup(g: string)
      requires Valid() && showEditModal && editField == Some(BloodGroupField) && g in BLOOD_GROUPS
      modifies this`tempValue
      ensures Valid() && tempValue == g
    {
      tempValue := g;
    }

    /** `saveEdit`: with no field selected the modal stays open and nothing
      changes; otherwise the field is updated and the modal closes. */
    method SaveEdit()
      requires Valid() && showEditModal
      modifies this`data, this`showEditModal, this`editField
      ensures Valid() && data == EditedData(old(data), old(editField), tempValue)
      ensures old(editField).None? ==> showEditModal && editField == None
      ensures old(editField).Some? ==> !showEditModal && editField == None
    {
      if editField.None? {
        return;
      }
      data := EditedData(data, editField, tempValue);
      showEditModal := false;
      editField := None;
    }

    /** The file reader finished with a new photo as a data URL. */
    method AvatarUploaded(dataUrl: string)
      requires Valid()
      modifies this`data
      ensures Valid() && data == old(data).(avatar := Some(dataUrl))
    {
      data := data.(avatar := Some(dataUrl));
    }

    /** `handleCall` on a contact's phone. */
    method HandleCall(phone: string)
      requires Valid()
      modifies this`dialled, this`haptics
      ensures Valid() && dialled == Some(TelLink(phone))
      ensures haptics == old(haptics) + (if hasVibrate then 1 else 0)
    {
      if hasVibrate {
        haptics := haptics + 1;
      }
      dialled := Some(TelLink(phone));
    }

    method ShowQR()
      requires Valid()
      modifies this`showQRModal
      ensures Valid() && showQRModal
    {
      showQRModal := true;
    }

    method HideQR()
      requires Valid() && showQRModal
      modifies this`showQRModal
      ensures Valid() && !showQRModal
    {
      showQRModal := false;
    }

    /** The payload the code shows. */
    function QrCode(): (p: QrPayload)
      reads this
      ensures |p.iceContacts| == |iceContacts|
    {
      QrData(data, iceContacts)
    }
  }
}
