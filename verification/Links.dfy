/** Virtual links between bays: what is stored under each key, and what the bays at
    both ends are told when a link is made, replaced or taken away. */
module Links {
  import opened Bytes

  /** A link as its origin bay configures it: the serial of the device at the other
      end and the port name of the bay there. */
  datatype Link = Link(origin: BayId, serial: bytes, bay: bytes, features: u32) {
    predicate Configured() { serial != [] && bay != [] }
  }

  /** What a bay is told: bay is the one the update came from, which holds the key. */
  datatype LinkEvent = Linked(key: BayId, bay: BayId, serial: bytes) | Unlinked(key: BayId, bay: BayId, serial: bytes)

  /** log is what the origin bays have been told. */
  datatype Book = Book(links: map<BayId, Link>, log: seq<LinkEvent>) {
    /** A change to the other end's bay name alone is ignored. */
    predicate Ignores(key: BayId, nl: Link) {
      key in links && links[key].serial == nl.serial && links[key].features == nl.features
    }

    predicate Closes(key: BayId, nl: Link) { key in links && !Ignores(key, nl) && links[key].Configured() }

    function Update(key: BayId, nl: Link): Book {
      if Ignores(key, nl) then this
      else Book(links[key := nl],
                log + (if Closes(key, nl) then [Unlinked(key, nl.origin, links[key].serial)] else [])
                + (if nl.Configured() then [Linked(key, nl.origin, nl.serial)] else []))
    }
  }

  const EMPTY_BOOK: Book := Book(map[], [])

  datatype Write = Write(key: BayId, link: Link)

  function AfterWrites(b: Book, ws: seq<Write>): Book {
    if ws == [] then b else AfterWrites(b, ws[..|ws| - 1]).Update(ws[|ws| - 1].key, ws[|ws| - 1].link)
  }

  /** The event that opened the link a log has open under a key. */
  function Open(log: seq<LinkEvent>, key: BayId): Option<LinkEvent> {
    if log == [] then None
    else
      var e := log[|log| - 1];
      if e.key != key then Open(log[..|log| - 1], key)
      else if e.Linked? then Some(e)
      else None
  }

  /** A link is made only where none is open, and an unlink names the one it closes. */
  ghost predicate Fits(log: seq<LinkEvent>, e: LinkEvent) {
    var o := Open(log, e.key);
    if e.Linked? then o.None? else o.Some? && o.value.serial == e.serial
  }

  ghost predicate Bracketed(log: seq<LinkEvent>) { forall i :: 0 <= i < |log| ==> Fits(log[..i], log[i]) }

  function Stored(b: Book, key: BayId): Option<LinkEvent> {
    if key in b.links && b.links[key].Configured() then Some(Linked(key, b.links[key].origin, b.links[key].serial)) else None
  }

  ghost predicate Consistent(b: Book) { Bracketed(b.log) && forall key :: Open(b.log, key) == Stored(b, key) }

  lemma OpenNext(log: seq<LinkEvent>, e: LinkEvent, key: BayId)
    ensures Open(log + [e], key) == if e.key != key then Open(log, key) else if e.Linked? then Some(e) else None
  {
    assert (log + [e])[..|log|] == log;
  }

  lemma BracketedNext(log: seq<LinkEvent>, e: LinkEvent)
    requires Bracketed(log) && Fits(log, e)
    ensures Bracketed(log + [e])
  {
    forall i | 0 <= i < |log| + 1
      ensures Fits((log + [e])[..i], (log + [e])[i])
    {
      assert (log + [e])[..i] == log[..i];
      assert log[..|log|] == log;
    }
  }

  /** The log once an update has closed what it replaces. */
  function Closed(b: Book, key: BayId, nl: Link): seq<LinkEvent> {
    if b.Closes(key, nl) then b.log + [Unlinked(key, nl.origin, b.links[key].serial)] else b.log
  }

  lemma UpdateLog(b: Book, key: BayId, nl: Link)
    requires !b.Ignores(key, nl)
    ensures b.Update(key, nl).log == Closed(b, key, nl) + if nl.Configured() then [Linked(key, nl.origin, nl.serial)] else []
  {
    assert b.log + [] == b.log;
  }

  lemma ClosedOpens(b: Book, key: BayId, nl: Link, k: BayId)
    requires Consistent(b) && !b.Ignores(key, nl)
    ensures Bracketed(Closed(b, key, nl))
    ensures Open(Closed(b, key, nl), k) == if k == key then None else Open(b.log, k)
  {
    hide Bracketed;
    assert Bracketed(b.log) && Open(b.log, key) == Stored(b, key);
    if b.Closes(key, nl) {
      var e := Unlinked(key, nl.origin, b.links[key].serial);
      hide Open;
      BracketedNext(b.log, e);
      OpenNext(b.log, e, k);
    }
  }

  lemma UpdateConsistent(b: Book, key: BayId, nl: Link)
    requires Consistent(b)
    ensures Consistent(b.Update(key, nl))
  {
    hide Open;
    hide Closed;
    hide Bracketed;
    if !b.Ignores(key, nl) {
      var closed, c := Closed(b, key, nl), b.Update(key, nl);
      UpdateLog(b, key, nl);
      ClosedOpens(b, key, nl, key);
      if nl.Configured() {
        BracketedNext(closed, Linked(key, nl.origin, nl.serial));
      } else {
        assert closed + [] == closed;
      }
      forall k
        ensures Open(c.log, k) == Stored(c, k)
      {
        ClosedOpens(b, key, nl, k);
        assert Open(b.log, k) == Stored(b, k);
        OpenNext(closed, Linked(key, nl.origin, nl.serial), k);
      }
    }
  }

  /** Over any sequence of updates the origin-side log is well bracketed under every
      key, and folding it gives exactly whether the stored link is configured and with
      which serial. */
  lemma {:induction false} LinkLogBracketed(ws: seq<Write>)
    ensures Consistent(AfterWrites(EMPTY_BOOK, ws))
  {
    if ws != [] {
      LinkLogBracketed(ws[..|ws| - 1]);
      UpdateConsistent(AfterWrites(EMPTY_BOOK, ws[..|ws| - 1]), ws[|ws| - 1].key, ws[|ws| - 1].link);
    }
  }

  lemma {:induction false} OpenedBy(log: seq<LinkEvent>, key: BayId)
    requires Open(log, key).Some?
    ensures var e := Open(log, key).value;
            e.Linked? && e.key == key && exists i :: OpensAt(log, key, i, |log|) && log[i] == e
  {
    var n := |log| - 1;
    if log[n].key == key {
      assert OpensAt(log, key, n, |log|);
    } else {
      OpenedBy(log[..n], key);
      var i :| OpensAt(log[..n], key, i, n) && log[..n][i] == Open(log[..n], key).value;
      forall k | i < k < |log|
        ensures log[k].key != key
      {
        assert k < n ==> log[..n][k] == log[k];
      }
      assert OpensAt(log, key, i, |log|) && log[i] == Open(log, key).value;
    }
  }

  /** The event at i makes a link under the key, untouched up to j. */
  ghost predicate OpensAt(log: seq<LinkEvent>, key: BayId, i: int, j: int) {
    0 <= i < j <= |log| && log[i].Linked? && log[i].key == key && forall k :: i < k < j ==> log[k].key != key
  }

  /** Every unlink closes one link of the same key and serial, made earlier and not
      touched since. */
  lemma UnlinkClosesItsLink(ws: seq<Write>, j: nat)
    requires var log := AfterWrites(EMPTY_BOOK, ws).log; j < |log| && log[j].Unlinked?
    ensures var log := AfterWrites(EMPTY_BOOK, ws).log;
            exists i :: OpensAt(log, log[j].key, i, j) && log[i].serial == log[j].serial
                        && Open(log[..j], log[j].key) == Some(log[i])
  {
    var log := AfterWrites(EMPTY_BOOK, ws).log;
    LinkLogBracketed(ws);
    assert Fits(log[..j], log[j]);
    OpenedBy(log[..j], log[j].key);
    var i :| OpensAt(log[..j], log[j].key, i, j) && log[..j][i] == Open(log[..j], log[j].key).value;
    forall k | i < k < j
      ensures log[k].key != log[j].key
    {
      assert log[..j][k] == log[k];
    }
    assert OpensAt(log, log[j].key, i, j);
  }

  // ---- which bay is told ----

  /** An unlink is told to the bay that was told of the link it closes. */
  ghost predicate SameBay(log: seq<LinkEvent>, e: LinkEvent) {
    e.Unlinked? && Open(log, e.key).Some? ==> Open(log, e.key).value.bay == e.bay
  }

  ghost predicate SameBays(log: seq<LinkEvent>) { forall i :: 0 <= i < |log| ==> SameBay(log[..i], log[i]) }

  /** A write that closes a link another bay made: the key has moved to a new bay since. */
  predicate Overtakes(b: Book, w: Write) { b.Closes(w.key, w.link) && b.links[w.key].origin != w.link.origin }

  lemma SameBaysNext(log: seq<LinkEvent>, e: LinkEvent)
    ensures SameBays(log + [e]) <==> SameBays(log) && SameBay(log, e)
  {
    var longer := log + [e];
    assert longer[..|log|] == log && longer[|log|] == e;
    forall i | 0 <= i < |log|
      ensures longer[..i] == log[..i] && longer[i] == log[i]
    {
    }
    if SameBays(longer) {
      assert SameBay(longer[..|log|], longer[|log|]);
      forall i | 0 <= i < |log|
        ensures SameBay(log[..i], log[i])
      {
        assert SameBay(longer[..i], longer[i]);
      }
    }
  }

  lemma UpdateSameBays(b: Book, w: Write)
    requires Consistent(b)
    ensures SameBays(b.Update(w.key, w.link).log) <==> SameBays(b.log) && !Overtakes(b, w)
  {
    hide SameBays;
    hide Open;
    var key, nl := w.key, w.link;
    if !b.Ignores(key, nl) {
      UpdateLog(b, key, nl);
      assert Open(b.log, key) == Stored(b, key);
      if b.Closes(key, nl) {
        SameBaysNext(b.log, Unlinked(key, nl.origin, b.links[key].serial));
      }
      SameBaysNext(Closed(b, key, nl), Linked(key, nl.origin, nl.serial));
      assert Closed(b, key, nl) + [] == Closed(b, key, nl);
    }
  }

  predicate OvertakesAt(ws: seq<Write>, n: nat)
    requires n < |ws|
  {
    Overtakes(AfterWrites(EMPTY_BOOK, ws[..n]), ws[n])
  }

  /** Over any updates: every unlink is told to the bay that was told of the link it
      closes, exactly when no update closes a link that another bay made. */
  lemma {:induction false} UnlinkedWhereLinked(ws: seq<Write>)
    ensures SameBays(AfterWrites(EMPTY_BOOK, ws).log) <==> forall n :: 0 <= n < |ws| ==> !OvertakesAt(ws, n)
  {
    hide Overtakes;
    if ws != [] {
      hide SameBays;
      var n := |ws| - 1;
      var front := ws[..n];
      UnlinkedWhereLinked(front);
      LinkLogBracketed(front);
      UpdateSameBays(AfterWrites(EMPTY_BOOK, front), ws[n]);
      forall k | 0 <= k < n
        ensures OvertakesAt(front, k) == OvertakesAt(ws, k)
      {
        assert front[..k] == ws[..k];
      }
      assert (forall k :: 0 <= k < |ws| ==> !OvertakesAt(ws, k))
        <==> (forall k :: 0 <= k < n ==> !OvertakesAt(front, k)) && !OvertakesAt(ws, n);
    }
  }
}
