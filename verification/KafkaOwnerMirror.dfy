/** The owner topics in the mirror: parseOwnerMessage is a parse function the mirror can be trusted with, and what its
    dropped messages mean for the table. */
module KafkaOwnerMirror {
  import opened Options
  import opened KafkaTable
  import opened KafkaOwnerMessage
  import opened KafkaMirror

  /** A deployment of the owners streamer. */
  function OwnerConfig(codec: Codec, partitionOf: string -> nat, partitions: nat, streamers: nat, maxSize: nat)
    : Config<Body, Columns>
  {
    Config(Owners, (msg: Message<Body>) => ParseOwnerMessage(codec, msg), partitionOf, partitions, streamers, maxSize,
           Delete(""))
  }

  /** Every deployment whose batches hold something and whose keys have partitions is one that all results about the
      mirror are about. */
  lemma OwnersAreSound(codec: Codec, partitionOf: string -> nat, partitions: nat, streamers: nat, maxSize: nat)
    requires maxSize >= 1 && forall k :: partitionOf(k) < partitions
    ensures Sound(OwnerConfig(codec, partitionOf, partitions, streamers, maxSize))
  {
    var cfg := OwnerConfig(codec, partitionOf, partitions, streamers, maxSize);
    forall msg ensures cfg.parse(msg).Parsed? ==> cfg.parse(msg).value.key == msg.key {
      KeyIsKept(codec, msg);
    }
  }

  /** A delete whose record has a blank NFT ID leaves the row that it should have removed: the table that the mirror
      converges to is the one without the message. */
  lemma BlankDeleteKeepsRow(codec: Codec, log: seq<Message<Body>>, msg: Message<Body>, k: string)
    requires msg.body.record.Some? && Blank(msg.body.record.value.nftId)
    requires exists h :: h in msg.body.headers && h.key == "modType"
    ensures
      var parse := (m: Message<Body>) => ParseOwnerMessage(codec, m);
      Fold(Owners, parse, log + [msg], k, None) == Fold(Owners, parse, log, k, None)
  {
    DroppedMessages(codec, msg);
    assert (log + [msg])[..|log|] == log;
  }
}
