/** parseOwnerMessage and parseNftID of kafka-streamer/main.go. */
module KafkaOwnerMessage {
  import opened Options
  import opened Strings
  import opened KafkaTable
  import B = KafkaBatcher

  datatype Header = Header(key: string, value: string)

  /** The fields of the Avro record that the parse looks at; `rest` stands for the columns it copies. */
  datatype Owner = Owner(
    nftId: string,
    address: string,
    quantity: Option<string>,
    firstAcquired: Option<string>,
    lastAcquired: Option<string>,
    rest: seq<Option<string>>)

  /** `record` is None when the bytes do not deserialize. */
  datatype Body = Body(headers: seq<Header>, record: Option<Owner>)

  datatype Columns = Columns(
    nftId: string,
    contractAddress: string,
    tokenId: string,
    address: string,
    quantity: Option<string>,
    firstAcquired: Option<string>,
    lastAcquired: Option<string>,
    rest: seq<Option<string>>)

  /** The two library parsers, as the strings they accept. */
  datatype Codec = Codec(isNumeric: string -> bool, isTimestamp: string -> bool)

  // ----- Strings

  predicate IsSpace(c: char) {
    var i := c as int;
    9 <= i <= 13 || i in {32, 0x85, 0xA0, 0x1680, 0x2028, 0x2029, 0x202F, 0x205F, 0x3000} || 0x2000 <= i <= 0x200A
  }

  /** strings.TrimSpace leaves nothing. */
  predicate Blank(s: string) {
    forall i :: 0 <= i < |s| ==> IsSpace(s[i])
  }

  function LowerChar(c: char): char {
    if 'A' <= c <= 'Z' then (c as int + 32) as char else c
  }

  /** Only the capital letters of ASCII change, each into its small letter. */
  function ToLower(s: string): (t: string)
    ensures |t| == |s|
    ensures forall i :: 0 <= i < |s| ==> !('A' <= t[i] <= 'Z')
    ensures forall i :: 0 <= i < |s| ==> t[i] == s[i] || ('A' <= s[i] <= 'Z' && t[i] as int == s[i] as int + 32)
  {
    seq(|s|, i requires 0 <= i < |s| => LowerChar(s[i]))
  }

  /** A string of spaces, tabs and line ends is blank, and one with a printable ASCII character is not. */
  lemma BlankExamples(s: string)
    ensures (forall c :: c in s ==> c in {' ', '\t', '\r', '\n'}) ==> Blank(s)
    ensures (exists c :: c in s && '!' <= c <= '~') ==> !Blank(s)
  {
    assert forall i :: 0 <= i < |s| ==> s[i] in s;
  }

  // ----- The parse

  /** The first header named modType, in lower case. */
  function ActionType(headers: seq<Header>): Option<string> {
    if headers == [] then None
    else if headers[0].key == "modType" then Some(ToLower(headers[0].value))
    else ActionType(headers[1..])
  }

  /** Contract address and token ID of a "chain.contract.token" string; an empty one is a non-fatal error. */
  function ParseNftId(codec: Codec, nftId: string): B.Outcome<(string, string)> {
    if Blank(nftId) then B.NonFatal
    else
      var parts := Split(nftId, '.');
      if |parts| != 3 || !codec.isNumeric(parts[2]) then B.Fatal
      else B.Parsed((ToLower(parts[1]), parts[2]))
  }

  function Accepts(ok: string -> bool, s: Option<string>): bool {
    s.None? || ok(s.value)
  }

  function ParseOwnerMessage(codec: Codec, msg: Message<Body>): B.Outcome<Entry<Columns>> {
    if msg.body.record.None? then B.Fatal
    else
      var owner := msg.body.record.value;
      match ActionType(msg.body.headers)
      case None => B.Fatal
      case Some(action) =>
        match ParseNftId(codec, owner.nftId)
        case Fatal => B.Fatal
        case NonFatal => B.NonFatal
        case Parsed((contract, tokenId)) =>
          if !Accepts(codec.isNumeric, owner.quantity) then B.Fatal
          else if !Accepts(codec.isTimestamp, owner.firstAcquired) then B.Fatal
          else if !Accepts(codec.isTimestamp, owner.lastAcquired) then B.Fatal
          else if action == "delete" then B.Parsed(Delete(msg.key))
          else if action == "insert" || action == "update" then
            B.Parsed(Upsert(msg.key,
                            Columns(owner.nftId, contract, tokenId, ToLower(owner.address), owner.quantity,
                                    owner.firstAcquired, owner.lastAcquired, owner.rest),
                            msg.partition, msg.offset))
          else B.Fatal
  }

  /** The only messages dropped without stopping the stream are decodable ones with an action and a blank
      NFT ID, whatever else is wrong with them.  A delete is dropped like the others, although its key is
      known, so the row it should have removed stays. */
  lemma DroppedMessages(codec: Codec, msg: Message<Body>)
    ensures
      ParseOwnerMessage(codec, msg) == B.NonFatal
      <==>
        && msg.body.record.Some? && Blank(msg.body.record.value.nftId)
        && exists h :: h in msg.body.headers && h.key == "modType"
  {
    ActionExists(msg.body.headers);
  }

  lemma {:induction false} ActionExists(headers: seq<Header>)
    ensures ActionType(headers).Some? <==> exists h :: h in headers && h.key == "modType"
  {
    if headers != [] && headers[0].key != "modType" {
      ActionExists(headers[1..]);
      assert forall h :: h in headers <==> h == headers[0] || h in headers[1..];
    }
  }

  /** The first header with the key "modType". */
  ghost predicate FirstModType(headers: seq<Header>, k: int) {
    && 0 <= k < |headers| && headers[k].key == "modType"
    && forall j :: 0 <= j < k ==> headers[j].key != "modType"
  }

  /** The action is that header's value in lower case; without such a header there is none. */
  lemma {:induction false} ActionIs(headers: seq<Header>)
    ensures forall k :: FirstModType(headers, k) ==> ActionType(headers) == Some(ToLower(headers[k].value))
    ensures (forall h :: h in headers ==> h.key != "modType") ==> ActionType(headers) == None
  {
    if headers != [] && headers[0].key != "modType" {
      ActionIs(headers[1..]);
      forall k | FirstModType(headers, k) ensures FirstModType(headers[1..], k - 1) {
        assert forall j :: 0 <= j < k - 1 ==> headers[1..][j] == headers[j + 1];
      }
    }
  }

  /** A message is parsed exactly when its record decodes, its first modType says insert, update or delete, its NFT ID
      has three parts of which the last is a number, and its quantity and dates can be read where there are any. */
  lemma ParsedIff(codec: Codec, msg: Message<Body>, k: int)
    requires FirstModType(msg.body.headers, k)
    ensures
      ParseOwnerMessage(codec, msg).Parsed? <==>
        && msg.body.record.Some?
        && ToLower(msg.body.headers[k].value) in {"insert", "update", "delete"}
        && var owner := msg.body.record.value;
        && !Blank(owner.nftId)
        && |Split(owner.nftId, '.')| == 3 && codec.isNumeric(Split(owner.nftId, '.')[2])
        && (owner.quantity == None || codec.isNumeric(owner.quantity.value))
        && (owner.firstAcquired == None || codec.isTimestamp(owner.firstAcquired.value))
        && (owner.lastAcquired == None || codec.isTimestamp(owner.lastAcquired.value))
  {
    ActionIs(msg.body.headers);
  }

  /** Without a record that decodes, or without a modType, a message stops the stream. */
  lemma UnreadableIsFatal(codec: Codec, msg: Message<Body>)
    requires msg.body.record == None || forall h :: h in msg.body.headers ==> h.key != "modType"
    ensures ParseOwnerMessage(codec, msg) == B.Fatal
  {
    ActionIs(msg.body.headers);
  }

  /** An entry carries its message's key; it deletes exactly when the first modType says so, and otherwise it carries
      the message's position and the record's own values: the contract and the token from the NFT ID's second and
      third part, and both addresses in lower case. */
  lemma EntryMatchesMessage(codec: Codec, msg: Message<Body>, k: int)
    requires ParseOwnerMessage(codec, msg).Parsed? && FirstModType(msg.body.headers, k)
    ensures
      var e, owner, action :=
        ParseOwnerMessage(codec, msg).value, msg.body.record.value, ToLower(msg.body.headers[k].value);
      && e.key == msg.key
      && (e.Delete? <==> action == "delete")
      && (e.Upsert? <==> action == "insert" || action == "update")
      && (e.Upsert? ==>
            && e.partition == msg.partition && e.offset == msg.offset
            && e.columns.nftId == owner.nftId
            && |Split(owner.nftId, '.')| == 3
            && e.columns.contractAddress == ToLower(Split(owner.nftId, '.')[1])
            && e.columns.tokenId == Split(owner.nftId, '.')[2]
            && e.columns.address == ToLower(owner.address)
            && e.columns.quantity == owner.quantity
            && e.columns.firstAcquired == owner.firstAcquired
            && e.columns.lastAcquired == owner.lastAcquired
            && e.columns.rest == owner.rest)
  {
    ActionIs(msg.body.headers);
  }

  /** The NFT ID of a row is its parts put together. */
  lemma NftIdOfRow(codec: Codec, msg: Message<Body>)
    requires ParseOwnerMessage(codec, msg).Parsed? && ParseOwnerMessage(codec, msg).value.Upsert?
    ensures
      var columns := ParseOwnerMessage(codec, msg).value.columns;
      exists chain, contract ::
        && columns.nftId == Join([chain, contract, columns.tokenId], '.')
        && columns.contractAddress == ToLower(contract)
  {
    var columns := ParseOwnerMessage(codec, msg).value.columns;
    var parts := Split(columns.nftId, '.');
    SplitThenJoin(columns.nftId, '.');
    assert parts == [parts[0], parts[1], columns.tokenId];
  }

  lemma KeyIsKept(codec: Codec, msg: Message<Body>)
    ensures ParseOwnerMessage(codec, msg).Parsed? ==> ParseOwnerMessage(codec, msg).value.key == msg.key
  {
  }

  /** An ID put together from its three parts is taken apart into them (the contract in lower case), if the
      parts have no dot in them and the token is a number. */
  lemma NftIdRoundTrip(codec: Codec, chain: string, contract: string, tokenId: string)
    requires '.' !in chain && '.' !in contract && '.' !in tokenId && codec.isNumeric(tokenId)
    ensures ParseNftId(codec, chain + "." + contract + "." + tokenId) == B.Parsed((ToLower(contract), tokenId))
  {
    var id := chain + "." + contract + "." + tokenId;
    assert id == chain + "." + (contract + "." + tokenId);
    SplitPrefix(chain, contract + "." + tokenId, '.');
    SplitPrefix(contract, tokenId, '.');
    SplitOne(tokenId, '.');
    assert id[|chain|] == '.' && !IsSpace('.');
    assert Split(id, '.') == [chain, contract, tokenId];
  }
}
