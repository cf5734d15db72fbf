/** The accept handler and the transport together: what a new client is told about itself. */
module Acceptance {
  import opened Bytes
  import opened Options
  import Messages
  import Delivery
  import Links
  import Server

  /**
   When the server accepts a connection, its one message goes to that connection, and in every run
   of the connection with an honest client the first message the client enqueues is this one; the
   number in it is the id the server has entered for the connection.
   */
  lemma AcceptedClientLearnsItsId(s: Server.ServerState, clock: Code, steps: seq<Links.Step>)
    requires Links.Run(Links.Accepted(clock, s.nextId, Server.NumberMessage(Server.SERVER_ACCEPT, s.nextId)), steps)
    ensures var after := Server.Accept(s);
      var conn := |s.ids|;
      var greeting := Server.NumberMessage(Server.SERVER_ACCEPT, s.nextId);
      var link := Links.After(Links.Accepted(clock, s.nextId, greeting), steps);
      && after.sent == s.sent + [Server.Sent(conn, greeting)]
      && Some(conn) in after.roster && conn in after.open
      && Messages.TopNumber(greeting) == s.nextId == after.ids[conn] == link.server.id
      && (link.client.r.delivered != [] ==> link.client.r.delivered[0] == greeting)
  {
    var greeting := Server.NumberMessage(Server.SERVER_ACCEPT, s.nextId);
    var after := Server.Accept(s);
    assert after.roster[|s.roster|] == Some(|s.ids|);
    Server.NumberMessageTop(Server.SERVER_ACCEPT, s.nextId);
    Delivery.FirstMessageIsAccept(clock, s.nextId, greeting, steps);
    hide Links.After, Links.Run, Links.Accepted;
  }
}
