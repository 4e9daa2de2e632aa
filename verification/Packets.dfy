/**
 Packets (core/types/packet.go). A JSON text is a value with the header, the payload and the version it
 spells out. Queues, buffers and the store hold packets by their text.
 */
module Packets {
  import opened Options

  const MSG_TYPE_OPEN_SESSION: nat := 0
  const MSG_TYPE_GROUP_CHAT: nat := 2
  const MSG_TYPE_STATE: nat := 3

  const SERVER_ACK := "server_ack"
  const KILL: nat := 3

  /** The text of a packet: the fields of its envelope, then the payload if there is one and the version. */
  datatype Packet = Packet(id: string, jid: string, from: string, to: string, mtype: nat, ack: nat,
                           pwd: string, gid: string, payload: Option<string>, vsn: string)

  datatype Envelope = Envelope(id: string, jid: string, from: string, to: string, mtype: nat, ack: nat,
                               pwd: string, gid: string)

  /** A packet in memory: its parsed fields, and the text it was read from if it was read. */
  datatype Loaded = Loaded(envelope: Envelope, payload: Option<string>, vsn: string, raw: Option<Packet>)

  function Header(text: Packet): (r: Envelope)
  {
    Envelope(text.id, text.jid, text.from, text.to, text.mtype, text.ack, text.pwd, text.gid)
  }

  /** NewPacket: only the envelope is parsed, the rest of the text stays in `raw`. */
  function NewPacket(text: Packet): (r: Loaded)
  {
    Loaded(Header(text), None, "", Some(text))
  }

  /** ToJson: the text a packet was read from, or else its parsed fields. */
  function ToJson(p: Loaded): (r: Packet)
  {
    match p.raw
    case Some(text) => text
    case None =>
      var e := p.envelope;
      Packet(e.id, e.jid, e.from, e.to, e.mtype, e.ack, e.pwd, e.gid, p.payload, p.vsn)
  }

  function Texts(ps: seq<Loaded>): (r: seq<Packet>)
    ensures |r| == |ps| && forall k :: 0 <= k < |r| ==> r[k] == ToJson(ps[k])
  {
    seq(|ps|, k requires 0 <= k < |ps| => ToJson(ps[k]))
  }

  /** The handlers look at the envelope of a packet and hand on its text, and the text shows that envelope. */
  predicate ShowsEnvelope(p: Loaded)
  {
    Header(ToJson(p)) == p.envelope
  }

  /** A packet that was read is handed on as it came, payload and version included. */
  lemma ReadIsHandedOn(text: Packet)
    ensures ToJson(NewPacket(text)) == text && ShowsEnvelope(NewPacket(text))
    ensures NewPacket(ToJson(NewPacket(text))) == NewPacket(text)
  {
  }
}
