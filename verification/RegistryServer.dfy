/** The login and registration code as it updates the peer table, one request at a time. */
module RegistryServer {
  import opened Options
  import opened Netip
  import opened Ipam
  import opened Registry
  import opened RegistryRuns
  import opened RegistryEffects

  datatype Config = Config(peerId: nat, tunnelIp: Option<Addr>, prefix: Option<Prefix>)

  datatype Failure = Refused(error: Error) | DuplicateAddress

  datatype Reply = LoginOk(config: Config) | LoginFailed(failure: Failure)

  function ConfigOf(p: Peer): Config {
    Config(p.id, p.ip, p.prefix)
  }

  predicate AddressTaken(rows: seq<Peer>, ip: Option<Addr>) {
    exists r | r in rows :: r.ip == ip
  }

  class Store {
    var rows: seq<Peer>
    var nextId: nat

    constructor ()
      ensures rows == [] && nextId == 1
    {
      rows, nextId := [], 1;
    }

    method GetPeerByMachineID(machineId: string) returns (peer: Option<Peer>)
      ensures peer == FindMachine(rows, machineId)
      ensures peer.Some? <==> Known(rows, machineId)
      ensures peer.Some? ==> exists k | 0 <= k < |rows| :: FirstRow(rows, machineId, k) && peer.value == rows[k]
    {
      FoundExactly(rows, machineId);
      var k := 0;
      while k < |rows|
        invariant k <= |rows| && FindMachine(rows, machineId) == FindMachine(rows[k..], machineId)
      {
        if rows[k].machineId == machineId {
          return Some(rows[k]);
        }
        assert rows[k..][1..] == rows[k + 1..];
        k := k + 1;
      }
      return None;
    }

    method GetPeerbyID(id: nat) returns (peer: Option<Peer>)
      ensures peer == FindId(rows, id)
      ensures peer.Some? <==> exists r | r in rows :: r.id == id
    {
      FoundIdExactly(rows, id);
      var k := 0;
      while k < |rows|
        invariant k <= |rows| && FindId(rows, id) == FindId(rows[k..], id)
      {
        if rows[k].id == id {
          return Some(rows[k]);
        }
        assert rows[k..][1..] == rows[k + 1..];
        k := k + 1;
      }
      return None;
    }

    method UpdatePeer(peer: Peer)
      modifies this`rows
      ensures rows == UpdateRows(old(rows), peer)
    {
      rows := UpdateRows(rows, peer);
    }

    method CreatePeer(peer: Peer) returns (err: bool, created: Peer)
      modifies this
      ensures err <==> AddressTaken(old(rows), peer.ip)
      ensures err ==> rows == old(rows) && nextId == old(nextId)
      ensures !err ==> created == peer.(id := old(nextId)) && rows == old(rows) + [created] && nextId == old(nextId) + 1
    {
      err, created := AddressTaken(rows, peer.ip), peer;
      if !err {
        created := peer.(id := nextId);
        rows := rows + [created];
        nextId := nextId + 1;
      }
    }

    method DeletePeer(id: nat)
      modifies this`rows
      ensures rows == DeleteId(old(rows), id)
      ensures forall r :: r in rows <==> r in old(rows) && r.id != id
    {
      DeletedExactly(rows, id);
      rows := DeleteId(rows, id);
    }
  }

  class Controller {
    const db: Store
    const prefix: Prefix

    constructor (db: Store, prefix: Prefix)
      ensures this.db == db && this.prefix == prefix
    {
      this.db, this.prefix := db, prefix;
    }

    method ProcessPeerLogin(peer: Peer, req: Request, now: Time) returns (err: bool, updated: Peer)
      modifies db
      ensures err <==> peer.disabled
      ensures err ==> db.rows == old(db.rows)
      ensures !err ==> updated == LoggedIn(peer, req, now) && db.rows == UpdateRows(old(db.rows), updated)
      ensures db.nextId == old(db.nextId)
    {
      updated := peer;
      if peer.disabled {
        return true, updated;
      }
      updated := updated.(lastLogin := now);
      updated := updated.(publicKey := req.publicKey);
      updated := updated.(hostname := req.hostname);
      updated := updated.(endpoint := req.endpoint);
      updated := updated.(connected := false);
      updated := updated.(loggedIn := true);
      db.UpdatePeer(updated);
      err := false;
    }

    /** The table is as before: see LogoutIsNotStored. */
    method LogoutPeer(peer: Peer)
      modifies db
      ensures db.rows == old(db.rows) && db.nextId == old(db.nextId)
    {
      LogoutIsNotStored(db.rows, peer.id);
      db.UpdatePeer(Blank(peer.id));
    }

    method RegisterPeer(req: Request, user: string, now: Time) returns (err: bool, peer: Peer)
      requires prefix.Valid()
      modifies db
      ensures var p := Enrolled(req, user, Allocated(IpColumn(old(db.rows)), prefix), prefix, now);
              && (err <==> AddressTaken(old(db.rows), p.ip))
              && (err ==> db.rows == old(db.rows) && db.nextId == old(db.nextId))
              && (!err ==>
                    peer == p.(id := old(db.nextId)) && db.rows == old(db.rows) + [peer]
                    && db.nextId == old(db.nextId) + 1)
    {
      var ip := AllocatePeerIP(IpColumn(db.rows), prefix);
      err, peer := db.CreatePeer(Enrolled(req, user, ip, prefix, now));
    }

    /** A deletion of a connected peer logs it out first, to no effect on the table. */
    method DeletePeer(id: nat) returns (err: bool)
      modifies db
      ensures err <==> FindId(old(db.rows), id).None?
      ensures db.rows == if err then old(db.rows) else DeleteId(old(db.rows), id)
      ensures err <==> forall r | r in old(db.rows) :: r.id != id
      ensures forall r :: r in db.rows <==> r in old(db.rows) && r.id != id
    {
      var peer := db.GetPeerbyID(id);
      if peer.None? {
        return true;
      }
      if peer.value.connected {
        LogoutPeer(peer.value);
      }
      db.DeletePeer(id);
      return false;
    }

    /** A login request run without interruption does what its decision says, and fails without a trace. */
    method LoginPeer(req: Request, token: Option<string>, now: Time) returns (reply: Reply)
      requires prefix.Valid()
      modifies db
      ensures match Login(old(db.rows), req, token, prefix, now)
              case Refuse(error) => reply == LoginFailed(Refused(error)) && db.rows == old(db.rows)
              case Relogin(p) => reply == LoginOk(ConfigOf(p)) && db.rows == UpdateRows(old(db.rows), p)
              case Enroll(p) =>
                if AddressTaken(old(db.rows), p.ip) then
                  reply == LoginFailed(DuplicateAddress) && db.rows == old(db.rows)
                else
                  reply == LoginOk(ConfigOf(p.(id := old(db.nextId))))
                  && db.rows == old(db.rows) + [p.(id := old(db.nextId))]
      ensures reply.LoginOk? ==>
                exists r | r in db.rows :: r.machineId == req.machineId && reply.config == Config(r.id, r.ip, r.prefix)
      ensures UniqueIds(old(db.rows)) && Known(old(db.rows), req.machineId) ==>
                && |db.rows| == |old(db.rows)|
                && forall k | 0 <= k < |db.rows| :: Identity(old(db.rows)[k], db.rows[k])
    {
      LoginKeepsIdentities(db.rows, req, token, prefix, now);
      if !ValidMachineId(req.machineId) {
        return LoginFailed(Refused(InvalidMachineId));
      }
      var found := db.GetPeerByMachineID(req.machineId);
      if found.Some? {
        var peer := found.value;
        if peer.disabled {
          return LoginFailed(Refused(Disabled));
        }
        if AuthExpired(peer, now) {
          if token.None? {
            if peer.loggedIn {
              LogoutPeer(peer);
            }
            return LoginFailed(Refused(InvalidToken));
          }
          if peer.user != token.value {
            return LoginFailed(Refused(WrongUser));
          }
          peer := peer.(lastAuth := now);
        }
        ReplyIsStored(db.rows, req, token, prefix, now);
        var err, updated := ProcessPeerLogin(peer, req, now);
        return LoginOk(ConfigOf(updated));
      } else {
        if token.None? {
          return LoginFailed(Refused(InvalidToken));
        }
        var err, peer := RegisterPeer(req, token.value, now);
        if err {
          return LoginFailed(DuplicateAddress);
        }
        return LoginOk(ConfigOf(peer));
      }
    }
  }
}
