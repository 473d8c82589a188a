/** WatcherConfig: three independent settings with their defaults. */
module Config {
  import Uuid
  import Codec

  const DefaultChannel: string := "casbin_postgres_watcher"

  class WatcherConfig {
    var channel: string
    var verbose: bool
    var localId: string

    /**
     * `new WatcherConfig()`. `random` stands for the sixteen bytes that
     * `UUID.randomUUID()` draws for the default local id.
     */
    constructor (random: seq<Uuid.Byte>)
      requires |random| == 16
      ensures GetChannel() == DefaultChannel
      ensures !IsVerbose()
      ensures GetLocalId() == Uuid.RandomUuidString(random)
    {
      channel := DefaultChannel;
      verbose := false;
      localId := Uuid.RandomUuidString(random);
    }

    function GetChannel(): string
      reads this
    {
      channel
    }

    function IsVerbose(): bool
      reads this
    {
      verbose
    }

    function GetLocalId(): string
      reads this
    {
      localId
    }

    method SetChannel(c: string)
      modifies this
      ensures GetChannel() == c
      ensures IsVerbose() == old(IsVerbose()) && GetLocalId() == old(GetLocalId())
    {
      channel := c;
    }

    method SetVerbose(v: bool)
      modifies this
      ensures IsVerbose() == v
      ensures GetChannel() == old(GetChannel()) && GetLocalId() == old(GetLocalId())
    {
      verbose := v;
    }

    method SetLocalId(id: string)
      modifies this
      ensures GetLocalId() == id
      ensures GetChannel() == old(GetChannel()) && IsVerbose() == old(IsVerbose())
    {
      localId := id;
    }
  }

  /**
   * The default local id is made of hex digits and hyphens only, so it holds
   * no ':' and every frame it tags splits back into the id and the JSON.
   */
  lemma DefaultLocalIdIsSafe(random: seq<Uuid.Byte>)
    requires |random| == 16
    ensures Codec.SafeId(Uuid.RandomUuidString(random))
  {
    var id := Uuid.RandomUuidString(random);
    forall i | 0 <= i < |id|
      ensures id[i] != ':'
    {
      assert id[i] == '-' || id[i] in Uuid.HexDigits;
    }
    Codec.NoColonIsSafe(id);
  }
}
