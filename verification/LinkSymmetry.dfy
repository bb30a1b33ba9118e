/** When the two ends of a virtual link agree on it. */
module LinkSymmetry {
  import opened Bytes
  import opened BayModel
  import opened DeviceModel
  import opened Links
  import opened Registry

  /** A bay the other end of a link may be looked up as. Devices are searched by serial
      in no particular order, the bays of the one found by port. */
  ghost predicate EndOf(r: Reg, l: Link, id: BayId) {
    && l.Configured() && id.device in r.devices
    && r.devices[id.device].hello.serial == l.serial
    && r.devices[id.device].ByName(l.bay) == Some(id.port)
  }

  ghost function KeyAt(r: Reg, id: BayId): BayId
    requires r.Knows(id)
  {
    r.devices[id.device].KeyOf(r.BayAt(id))
  }

  /** The link stored under a key is configured and names the bay's serial and port. */
  ghost predicate Names(r: Reg, key: BayId, id: BayId)
    requires r.Knows(id)
  {
    && key in r.book.links && r.book.links[key].Configured()
    && r.book.links[key].serial == r.devices[id.device].Serial() && r.book.links[key].bay == r.BayAt(id).portName
  }

  /** The link found at that bay names this link's own bay. */
  ghost predicate ConnectedAt(r: Reg, l: Link, id: BayId)
    requires r.Knows(l.origin)
  {
    EndOf(r, l, id) && r.Knows(id) && Names(r, KeyAt(r, id), l.origin)
  }

  ghost predicate Connected(r: Reg, l: Link)
    requires r.Knows(l.origin)
  {
    exists id :: ConnectedAt(r, l, id)
  }

  // ---- the media a link carries ----

  predicate Pair(left: u32, right: u32, a: nat, b: nat)
    requires a > 0 && b > 0
  {
    (Has(left, a) && Has(right, b)) || (Has(left, b) && Has(right, a))
  }

  function MediaMask(left: u32, right: u32): nat {
    (if Pair(left, right, HDMI_OUT, HDMI_IN) then 1 else 0)
    + (if Pair(left, right, AUDIO_DIG_OUT, AUDIO_DIG_IN) then 2 else 0)
    + (if Pair(left, right, AUDIO_ANA_OUT, AUDIO_ANA_IN) then 4 else 0)
    + (if Pair(left, right, IR_OUT, IR_IN) then 8 else 0)
    + (if Pair(left, right, RC_OUT, RC_IN) then 16 else 0)
  }

  /** The mask computed for a link whose other end is looked up as the given bay. */
  ghost function FeatureMask(r: Reg, l: Link, id: BayId): nat
    requires r.Knows(l.origin) && r.Knows(id)
  {
    if ConnectedAt(r, l, id) then MediaMask(r.BayAt(l.origin).features, r.BayAt(id).features) else 0
  }

  /** One of the two bays puts out what the other takes in. */
  predicate Meet(left: u32, right: u32, output: nat, input: nat)
    requires output > 0 && input > 0
  {
    (Has(left, output) && Has(right, input)) || (Has(right, output) && Has(left, input))
  }

  /** The bits of a mask stand for HDMI, digital audio, analogue audio, infrared and remote
      control, by the feature bits of the two bays. */
  ghost predicate Carries(mask: nat, left: u32, right: u32) {
    && mask < 32
    && (Has(mask, 1) <==> Meet(left, right, 0x1, 0x2))
    && (Has(mask, 2) <==> Meet(left, right, 0x4, 0x8))
    && (Has(mask, 4) <==> Meet(left, right, 0x10, 0x20))
    && (Has(mask, 8) <==> Meet(left, right, 0x80, 0x40))
    && (Has(mask, 16) <==> Meet(left, right, 0x200, 0x400))
  }

  lemma Bits(a: bool, b: bool, c: bool, d: bool, e: bool)
    ensures var m: nat := (if a then 1 else 0) + (if b then 2 else 0) + (if c then 4 else 0) + (if d then 8 else 0)
                          + (if e then 16 else 0);
            && m < 32 && Has(m, 1) == a && Has(m, 2) == b && Has(m, 4) == c && Has(m, 8) == d && Has(m, 16) == e
  {
  }

  /** The mask of a connected link has a bit for each medium one of its ends puts out and the
      other takes in; any other link's is empty. */
  lemma MaskIsCommonMedia(r: Reg, l: Link, id: BayId)
    requires r.Knows(l.origin) && r.Knows(id)
    ensures ConnectedAt(r, l, id) ==> Carries(FeatureMask(r, l, id), r.BayAt(l.origin).features, r.BayAt(id).features)
    ensures !ConnectedAt(r, l, id) ==> FeatureMask(r, l, id) == 0
  {
    hide ConnectedAt;
    hide Has;
    var a, b := r.BayAt(l.origin).features, r.BayAt(id).features;
    Bits(Meet(a, b, 0x1, 0x2), Meet(a, b, 0x4, 0x8), Meet(a, b, 0x10, 0x20), Meet(a, b, 0x80, 0x40), Meet(a, b, 0x200, 0x400));
  }

  // ---- distinct names ----

  ghost predicate SerialsApart(r: Reg, u: uid, v: uid) {
    u in r.devices && v in r.devices && r.devices[u].hello.serial == r.devices[v].hello.serial ==> u == v
  }

  ghost predicate NamesApart(r: Reg, a: BayId, b: BayId) {
    r.Knows(a) && r.Knows(b) && a.device == b.device && r.BayAt(a).portName == r.BayAt(b).portName ==> a == b
  }

  ghost predicate KeysApart(r: Reg, a: BayId, b: BayId) {
    r.Knows(a) && r.Knows(b) && KeyAt(r, a) == KeyAt(r, b) ==> a == b
  }

  /** Serials are there and tell devices apart, port names tell the bays of one device
      apart, and keys tell bays apart. */
  ghost predicate Distinct(r: Reg) {
    && (forall u :: u in r.devices ==> r.devices[u].hello.serial != [])
    && (forall u, v :: SerialsApart(r, u, v))
    && (forall a, b :: NamesApart(r, a, b))
    && (forall a, b :: KeysApart(r, a, b))
  }

  /** A bay is what a link naming its device's serial and its port name leads to, and
      nothing else is. */
  lemma EndIsNamed(r: Reg, l: Link, id: BayId)
    requires Distinct(r) && r.Knows(id) && l.Configured()
    ensures EndOf(r, l, id) <==> l.serial == r.devices[id.device].Serial() && l.bay == r.BayAt(id).portName
  {
    var d := r.devices[id.device];
    if l.serial == d.Serial() && l.bay == d.bays[id.port].portName {
      assert id.port in d.Named(l.bay);
      var found := d.ByName(l.bay).value;
      assert NamesApart(r, id, BayId(id.device, found));
    }
  }

  lemma EndUnique(r: Reg, l: Link, a: BayId, b: BayId)
    requires Distinct(r) && EndOf(r, l, a) && EndOf(r, l, b)
    ensures a == b
  {
    assert SerialsApart(r, a.device, b.device);
  }

  /** The link at the other end of a connected one, wherever either is stored. */
  ghost function OtherEnd(r: Reg, l: Link, id: BayId): Link
    requires r.Knows(l.origin) && ConnectedAt(r, l, id)
  {
    r.book.links[KeyAt(r, id)]
  }

  /** For every connected link, whatever key it is stored under: the link at its other
      end is connected exactly when the link stored under this one's bay's present key
      names the bay the other one was made by. It then leads back here, and carries what
      that bay and this one have in common. */
  lemma ConnectedBack(r: Reg, l: Link, id: BayId)
    requires BookOk(r) && Distinct(r) && r.Knows(l.origin) && ConnectedAt(r, l, id)
    ensures var other := OtherEnd(r, l, id);
            && r.Knows(other.origin)
            && (Connected(r, other) <==> Names(r, KeyAt(r, l.origin), other.origin))
            && (Connected(r, other) ==>
                  ConnectedAt(r, other, l.origin)
                  && Carries(FeatureMask(r, other, l.origin), r.BayAt(other.origin).features, r.BayAt(l.origin).features))
  {
    hide KeyAt;
    hide Distinct;
    hide FeatureMask;
    hide Carries;
    var other := OtherEnd(r, l, id);
    EndIsNamed(r, other, l.origin);
    if Connected(r, other) {
      var back :| ConnectedAt(r, other, back);
      EndUnique(r, other, back, l.origin);
    }
    if Names(r, KeyAt(r, l.origin), other.origin) {
      assert ConnectedAt(r, other, l.origin);
      MaskIsCommonMedia(r, other, l.origin);
    }
  }

  lemma SameMedia(a: u32, b: u32)
    ensures MediaMask(a, b) == MediaMask(b, a)
  {
    hide Has;
  }

  /** For a connected link stored under its own bay's present key this comes to: the
      other link was made by the bay found at the other end. Both then compute the same
      mask, the media the two bays have in common. */
  lemma ConnectionSymmetric(r: Reg, l: Link, id: BayId)
    requires BookOk(r) && Distinct(r) && r.Knows(l.origin)
    requires KeyAt(r, l.origin) in r.book.links && r.book.links[KeyAt(r, l.origin)] == l
    requires ConnectedAt(r, l, id)
    ensures var other := OtherEnd(r, l, id);
            && r.Knows(other.origin)
            && (Connected(r, other) <==> other.origin == id)
            && (other.origin == id ==>
                  ConnectedAt(r, other, l.origin) && FeatureMask(r, other, l.origin) == FeatureMask(r, l, id))
            && Carries(FeatureMask(r, l, id), r.BayAt(l.origin).features, r.BayAt(id).features)
  {
    hide KeyAt;
    hide Distinct;
    hide MediaMask;
    hide Carries;
    var other := OtherEnd(r, l, id);
    ConnectedBack(r, l, id);
    MaskIsCommonMedia(r, l, id);
    EndIsNamed(r, l, other.origin);
    EndIsNamed(r, l, id);
    if Connected(r, other) {
      EndUnique(r, l, id, other.origin);
      SameMedia(r.BayAt(l.origin).features, r.BayAt(id).features);
    }
  }

  /** Where every link is stored under its origin's present key, connection is
      symmetric. */
  lemma CurrentKeysSymmetric(r: Reg, key: BayId, id: BayId)
    requires BookOk(r) && Distinct(r) && key in r.book.links
    requires forall k :: k in r.book.links ==> r.Knows(r.book.links[k].origin) && KeyAt(r, r.book.links[k].origin) == k
    requires ConnectedAt(r, r.book.links[key], id)
    ensures var l := r.book.links[key];
            var other := OtherEnd(r, l, id);
            && r.Knows(other.origin) && Connected(r, other)
            && FeatureMask(r, other, l.origin) == FeatureMask(r, l, id)
            && Carries(FeatureMask(r, l, id), r.BayAt(l.origin).features, r.BayAt(id).features)
  {
    hide Carries;
    ConnectionSymmetric(r, r.book.links[key], id);
    assert KeysApart(r, r.book.links[KeyAt(r, id)].origin, id);
  }
}
