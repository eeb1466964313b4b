/**
 The IPC channel names a remote store listens and sends on. Each is a fixed
 prefix followed by the store's dispatch name.
 */
module Channels {
  import opened Wrappers

  const ConnectPrefix: string := "ALT:CONNECT:"
  const DispatchPrefix: string := "ALT:DISPATCH_REMOTE_ACTION:"

  /** The two kinds of channel a remote store uses. */
  datatype Kind = Connect | Dispatch

  function Prefix(k: Kind): string {
    match k
    case Connect => ConnectPrefix
    case Dispatch => DispatchPrefix
  }

  /** The channel of kind `k` for the store with the given dispatch name. */
  function Channel(k: Kind, dispatchName: string): (c: string)
    ensures |c| == |Prefix(k)| + |dispatchName|
    ensures Prefix(k) <= c
  {
    Prefix(k) + dispatchName
  }

  function ConnectChannel(dispatchName: string): string {
    Channel(Connect, dispatchName)
  }

  function DispatchChannel(dispatchName: string): string {
    Channel(Dispatch, dispatchName)
  }

  /** Recovers the kind and dispatch name from a channel name, if it is one. */
  function Parse(c: string): (r: Option<(Kind, string)>)
    ensures r.Some? ==> Prefix(r.value.0) <= c
  {
    if ConnectPrefix <= c then Some((Connect, c[|ConnectPrefix|..]))
    else if DispatchPrefix <= c then Some((Dispatch, c[|DispatchPrefix|..]))
    else None
  }

  /** No channel of one kind starts with the prefix of the other kind:
      the prefixes already differ at their fifth character. */
  lemma PrefixesDiffer(k: Kind, d: string)
    ensures Parse(Channel(k, d)).Some?
    ensures k == Dispatch ==> !(ConnectPrefix <= Channel(k, d))
  {
    var c := Channel(k, d);
    if k == Dispatch {
      assert c[4] == 'D';
      assert ConnectPrefix[4] == 'C';
    }
  }

  /** Parsing a channel name gives back its kind and dispatch name. */
  lemma ParseChannel(k: Kind, d: string)
    ensures Parse(Channel(k, d)) == Some((k, d))
  {
    PrefixesDiffer(k, d);
    var c := Channel(k, d);
    assert c[|Prefix(k)|..] == d;
  }

  /** Every name that parses is the channel built from what it parses to. */
  lemma ChannelOfParse(c: string)
    requires Parse(c).Some?
    ensures Channel(Parse(c).value.0, Parse(c).value.1) == c
  {
  }

  /** Channel names are unique: the kind and dispatch name are determined by
      the name, so a store never confuses its two channels, nor its channels
      with another store's. */
  lemma ChannelInjective(k1: Kind, d1: string, k2: Kind, d2: string)
    ensures Channel(k1, d1) == Channel(k2, d2) <==> k1 == k2 && d1 == d2
  {
    ParseChannel(k1, d1);
    ParseChannel(k2, d2);
  }
}
