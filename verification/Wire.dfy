/**
 The texts that nodes send to each other: how each message is printed, how the
 dispatcher tells them apart, and what it reads out of them.
 */
module Wire {
  import opened Endpoints
  import opened Options
  import opened Protocol
  import opened Texts

  // ----- Friend lists -----

  function PackedEntries(eps: seq<Endpoint>): string {
    if eps == [] then [] else EndpointText(eps[0]) + ";" + PackedEntries(eps[1..])
  }

  function Packed(eps: seq<Endpoint>): string {
    "<" + PackedEntries(eps)
  }

  /** The entries of a friend list; `None` where the program would run off the text or throw. */
  function Entries(s: string): Option<seq<Endpoint>>
    decreases |s|
  {
    if s == [] then Some([])
    else
      match Cut(s, ':')
      case None => None
      case Some((address, s1)) =>
        match Cut(s1, ';')
        case None => None
        case Some((port, s2)) =>
          match (ParseAddress(CString(address)), ParsePort(port))
          case (Some(a), Some(p)) =>
            (match Entries(s2)
             case None => None
             case Some(rest) => Some([Endpoint(a, p)] + rest))
          case _ => None
  }

  function Unpacked(s: string): Option<seq<Endpoint>> {
    match Cut(s, '<')
    case None => None
    case Some((_, body)) => Entries(body)
  }

  lemma {:induction false} EntriesRoundTrip(eps: seq<Endpoint>)
    ensures Entries(PackedEntries(eps)) == Some(eps)
  {
    if eps != [] {
      var ep := eps[0];
      var rest := PackedEntries(eps[1..]);
      var s := PackedEntries(eps);
      var s1 := DecimalText(ep.port) + ";" + rest;
      assert s == AddressText(ep.address) + ":" + s1;
      AddressTextIsPlain(ep.address);
      CStringOfPlain(AddressText(ep.address));
      PortRoundTrip(ep.port);
      CutAtSeparator(AddressText(ep.address), ':', s1);
      CutAtSeparator(DecimalText(ep.port), ';', rest);
      AddressRoundTrip(AddressText(ep.address), ep.address);
      EntriesRoundTrip(eps[1..]);
      assert eps == [ep] + eps[1..];
    }
  }

  lemma {:induction false} PackedEntriesSnoc(eps: seq<Endpoint>, ep: Endpoint)
    ensures PackedEntries(eps + [ep]) == PackedEntries(eps) + EndpointText(ep) + ";"
  {
    if eps == [] {
      assert eps + [ep] == [ep];
    } else {
      assert (eps + [ep])[1..] == eps[1..] + [ep];
      PackedEntriesSnoc(eps[1..], ep);
    }
  }

  lemma PackedSnoc(eps: seq<Endpoint>, ep: Endpoint)
    ensures Packed(eps + [ep]) == Packed(eps) + (EndpointText(ep) + ";")
  {
    PackedEntriesSnoc(eps, ep);
  }

  /** Unpacking a packed list gives the list. */
  lemma FriendListRoundTrip(eps: seq<Endpoint>)
    ensures Unpacked(Packed(eps)) == Some(eps)
  {
    assert Packed(eps) == [] + "<" + PackedEntries(eps);
    CutAtSeparator([], '<', PackedEntries(eps));
    EntriesRoundTrip(eps);
  }

  lemma PackedOne(ep: Endpoint, eps: seq<Endpoint>)
    ensures Packed([]) == "<"
    ensures PackedEntries([ep] + eps) ==
              DecimalText(ep.address.a) + "." + DecimalText(ep.address.b) + "." + DecimalText(ep.address.c) + "."
              + DecimalText(ep.address.d) + ":" + DecimalText(ep.port) + ";" + PackedEntries(eps)
  {
    assert ([ep] + eps)[1..] == eps;
  }

  lemma {:induction false} PackedLength(eps: seq<Endpoint>)
    ensures |PackedEntries(eps)| <= 22 * |eps|
  {
    if eps != [] {
      EndpointLength(eps[0]);
      PackedLength(eps[1..]);
    }
  }

  // ----- Which texts are friend lists -----

  /** The texts around the separators of one entry. */
  datatype Entry = Entry(address: string, port: string)

  function Joined(es: seq<Entry>): string {
    if es == [] then "" else es[0].address + ":" + es[0].port + ";" + Joined(es[1..])
  }

  /** The texts of an endpoint: its address, perhaps with more after a null character, and a numeral of its port. */
  ghost predicate EntryFor(e: Entry, ep: Endpoint) {
    && ':' !in e.address && ';' !in e.port
    && (e.address == AddressText(ep.address)
        || exists junk :: e.address == AddressText(ep.address) + "\0" + junk)
    && exists n :: Stoi(e.port) == Some(n) && ep.port == n % 0x1_0000
  }

  ghost predicate EntriesFor(es: seq<Entry>, eps: seq<Endpoint>) {
    |es| == |eps| && forall i :: 0 <= i < |es| ==> EntryFor(es[i], eps[i])
  }

  lemma AddressInFront(s: string, a: Address)
    ensures ParseAddress(CString(s)) == Some(a) <==>
            s == AddressText(a) || exists junk :: s == AddressText(a) + "\0" + junk
  {
    AddressRoundTrip(CString(s), a);
    AddressTextIsPlain(a);
    if CString(s) == AddressText(a) && Cut(s, '\0').Some? {
      assert s == AddressText(a) + "\0" + Cut(s, '\0').value.1;
    }
    if s == AddressText(a) {
      CStringOfPlain(s);
    } else if junk :| s == AddressText(a) + "\0" + junk {
      CutAtSeparator(AddressText(a), '\0', junk);
    }
  }

  lemma EntryIsRead(e: Entry, ep: Endpoint)
    ensures EntryFor(e, ep) <==> ':' !in e.address && ';' !in e.port
                                 && ParseAddress(CString(e.address)) == Some(ep.address)
                                 && ParsePort(e.port) == Some(ep.port)
  {
    AddressInFront(e.address, ep.address);
  }

  lemma FirstEntryIsRead(e: Entry, ep: Endpoint, rest: string)
    requires EntryFor(e, ep)
    ensures Entries(e.address + ":" + e.port + ";" + rest) ==
            match Entries(rest) case None => None case Some(eps) => Some([ep] + eps)
  {
    hide EntryFor, ParseAddress, ParsePort, CString;
    EntryIsRead(e, ep);
    var s, s1 := e.address + ":" + e.port + ";" + rest, e.port + ";" + rest;
    assert s == e.address + ":" + s1;
    CutAtSeparator(e.address, ':', s1);
    CutAtSeparator(e.port, ';', rest);
  }

  lemma {:induction false} JoinedIsRead(es: seq<Entry>, eps: seq<Endpoint>)
    requires EntriesFor(es, eps)
    ensures Entries(Joined(es)) == Some(eps)
    decreases |es|
  {
    if es != [] {
      hide EntryFor;
      assert EntryFor(es[0], eps[0]);
      JoinedIsRead(es[1..], eps[1..]);
      FirstEntryIsRead(es[0], eps[0], Joined(es[1..]));
      assert eps == [eps[0]] + eps[1..];
    }
  }

  lemma FirstEntryOf(s: string) returns (e: Entry, ep: Endpoint, rest: string)
    requires s != [] && Entries(s).Some?
    ensures EntryFor(e, ep) && s == e.address + ":" + e.port + ";" + rest && |rest| < |s|
    ensures Entries(rest).Some? && Entries(s).value == [ep] + Entries(rest).value
  {
    hide EntryFor, Cut, ParseAddress, ParsePort, CString;
    var (address, s1) := Cut(s, ':').value;
    var (port, s2) := Cut(s1, ';').value;
    e, ep, rest := Entry(address, port), Entries(s).value[0], s2;
    EntryIsRead(e, ep);
    Reassociated(address, port, s2);
  }

  lemma Reassociated(address: string, port: string, rest: string)
    ensures address + [':'] + (port + [';'] + rest) == address + ":" + port + ";" + rest
  {
  }

  lemma {:induction false} ReadIsJoined(s: string) returns (es: seq<Entry>)
    requires Entries(s).Some?
    ensures EntriesFor(es, Entries(s).value) && s == Joined(es)
    decreases |s|
  {
    if s == [] {
      return [];
    }
    var e, ep, rest := FirstEntryOf(s);
    es := ReadIsJoined(rest);
    hide EntryFor, Entries;
    assert ([e] + es)[1..] == es;
    es := [e] + es;
  }

  /** A text is read as a friend list exactly when it is made of entries for its endpoints, and as no other list. */
  lemma ListsAreWellFormed(text: string, eps: seq<Endpoint>)
    ensures Unpacked(text) == Some(eps) <==>
            exists before, es :: '<' !in before && EntriesFor(es, eps) && text == before + "<" + Joined(es)
  {
    hide Entries, Joined, EntriesFor;
    if Unpacked(text) == Some(eps) {
      var (before, body) := Cut(text, '<').value;
      var es := ReadIsJoined(body);
      assert text == before + "<" + Joined(es);
    }
    if before, es :| '<' !in before && EntriesFor(es, eps) && text == before + "<" + Joined(es) {
      CutAtSeparator(before, '<', Joined(es));
      JoinedIsRead(es, eps);
    }
  }

  // ----- Messages -----

  function Print(m: Message): string {
    match m
    case BeFriends(p) => "Be friends?:" + DecimalText(p)
    case Yes => "Yes"
    case No => "No"
    case SendFriends => "Send friends"
    case Friends(list) => Packed(list)
    case Added(p) => "Added to friends:" + DecimalText(p)
    case Confirmed => "Confirmed"
    case NotConfirmed => "Not confirmed(friends limit)"
    case AlreadyFriends => "Already friends"
    case Removed(p) => "Removed:" + DecimalText(p)
  }

  /** The number after the first colon, in an int; `None` where there is no colon to stop at. */
  function PortIn(text: string): Option<int> {
    match Cut(text, ':')
    case None => None
    case Some((_, digits)) => Some(AsInt(Fold(digits)))
  }

  /**
   What a text is to the dispatcher: a message, a text it prints and drops, the
   archive of a key, or a text on which a parser runs past the end or throws.
   */
  datatype Reading = Handled(message: Message) | Undefined | KeyMaterial(archive: string) | Faulty

  predicate Starts(text: string, c: char) {
    text != [] && text[0] == c
  }

  function Read(text: string): Reading {
    if Starts(text, 'B') then
      match PortIn(text) case None => Faulty case Some(n) => Handled(BeFriends(PortOf(n)))
    else if Starts(text, 'P') then
      match Cut(text, '/') case None => Faulty case Some((_, archive)) => KeyMaterial(archive)
    else if text == "Yes" then Handled(Yes)
    else if text == "No" then Handled(No)
    else if text == "Send friends" then Handled(SendFriends)
    else if text == "Not confirmed(friends limit)" then Handled(NotConfirmed)
    else if Starts(text, 'A') then
      match PortIn(text) case None => Faulty case Some(n) => Handled(Added(PortOf(n)))
    else if Starts(text, '<') then
      match Unpacked(text) case None => Faulty case Some(list) => Handled(Friends(list))
    else if Starts(text, 'R') then
      match PortIn(text) case None => Faulty case Some(n) => Handled(Removed(PortOf(n)))
    else Undefined
  }

  lemma PortAfterLabel(prefix: string, p: Port)
    requires ':' !in prefix
    ensures PortIn(prefix + ":" + DecimalText(p)) == Some(p)
  {
    hide Cut, DecimalText, Fold, AsInt;
    CutAtSeparator(prefix, ':', DecimalText(p));
    DecimalRoundTrip(p);
    PortsAreInts(p);
  }

  lemma ReadsByFirstLetter(text: string, p: Port)
    requires text != [] && PortIn(text) == Some(p)
    ensures text[0] == 'B' ==> Read(text) == Handled(BeFriends(p))
    ensures text[0] == 'A' ==> Read(text) == Handled(Added(p))
    ensures text[0] == 'R' ==> Read(text) == Handled(Removed(p))
  {
  }

  lemma RequestRoundTrip(p: Port)
    ensures Read(Print(BeFriends(p))) == Handled(BeFriends(p))
  {
    hide Read, Cut;
    PortAfterLabel("Be friends?", p);
    var text := "Be friends?" + ":" + DecimalText(p);
    assert Print(BeFriends(p)) == text && text[0] == 'B';
    ReadsByFirstLetter(text, p);
  }

  lemma AdditionRoundTrip(p: Port)
    ensures Read(Print(Added(p))) == Handled(Added(p))
  {
    hide Read, Cut;
    PortAfterLabel("Added to friends", p);
    var text := "Added to friends" + ":" + DecimalText(p);
    assert Print(Added(p)) == text && text[0] == 'A';
    ReadsByFirstLetter(text, p);
  }

  lemma RemovalRoundTrip(p: Port)
    ensures Read(Print(Removed(p))) == Handled(Removed(p))
  {
    hide Read, Cut;
    PortAfterLabel("Removed", p);
    var text := "Removed" + ":" + DecimalText(p);
    assert Print(Removed(p)) == text && text[0] == 'R';
    ReadsByFirstLetter(text, p);
  }

  lemma ReadsLists(text: string, list: seq<Endpoint>)
    requires Starts(text, '<') && Unpacked(text) == Some(list)
    ensures Read(text) == Handled(Friends(list))
  {
    hide Unpacked, Cut;
  }

  lemma ListsRoundTrip(list: seq<Endpoint>)
    ensures Read(Print(Friends(list))) == Handled(Friends(list))
  {
    hide Read, Unpacked, PackedEntries;
    FriendListRoundTrip(list);
    assert Print(Friends(list)) == Packed(list) && Packed(list)[0] == '<';
    ReadsLists(Packed(list), list);
  }

  lemma PlainMessagesRoundTrip()
    ensures Read("Yes") == Handled(Yes) && Read("No") == Handled(No) && Read("Send friends") == Handled(SendFriends)
    ensures Read("Not confirmed(friends limit)") == Handled(NotConfirmed)
    ensures Read("Confirmed") == Undefined
  {
    assert "Confirmed"[0] == 'C' && "Not confirmed(friends limit)"[1] == 'o' && "Send friends"[0] == 'S';
    assert |"Not confirmed(friends limit)"| == 28 && |"Send friends"| == 12 && |"No"| == 2;
  }

  /** The dispatcher takes it for an `Added` message and looks for a port that is not there. */
  lemma AlreadyFriendsIsMisread()
    ensures Read(Print(AlreadyFriends)) == Faulty
  {
    var text := "Already friends";
    assert text[0] == 'A';
    assert ':' !in text;
  }

  /** Every message is read as itself, but for two: one is dropped, and one the parser cannot survive. */
  lemma MessageRoundTrip(m: Message)
    ensures Read(Print(m)) ==
            if m.Confirmed? then Undefined
            else if m.AlreadyFriends? then Faulty
            else Handled(m)
  {
    match m
    case BeFriends(p) => RequestRoundTrip(p);
    case Added(p) => AdditionRoundTrip(p);
    case Removed(p) => RemovalRoundTrip(p);
    case Friends(list) => ListsRoundTrip(list);
    case AlreadyFriends => AlreadyFriendsIsMisread();
    case _ => PlainMessagesRoundTrip();
  }

  /** A message of a node with at most six friends fits in one receive of 1024 bytes. */
  lemma MessagesFit(m: Message)
    requires m.Friends? ==> |m.list| <= FRIENDS_LIMIT
    ensures |Print(m)| <= 133
  {
    match m
    case Friends(list) => PackedLength(list);
    case BeFriends(p) => DecimalLength(p, 5, 100000);
    case Added(p) => DecimalLength(p, 5, 100000);
    case Removed(p) => DecimalLength(p, 5, 100000);
    case _ =>
  }
}
