/** The call table that both media relays (`udp_relay_server.py` and
    `relay_server.py`) keep: call id to the two usernames and their groups,
    filled by `call_accepted` and searched in insertion order for the first
    call a username takes part in. */
module RelayCalls {
  import opened Common
  import opened Dict

  /** `{caller, callee, caller_group, callee_group}` */
  datatype Call = Call(caller: string, callee: string, callerGroup: string, calleeGroup: string)

  /** `username in (call['caller'], call['callee'])` */
  function Participant(username: string): (string, Call) -> bool {
    (id: string, c: Call) => username == c.caller || username == c.callee
  }

  /** The other side of a call: the callee for the caller, the caller otherwise. */
  function PeerOf(c: Call, username: string): (r: string)
    ensures username == c.caller ==> r == c.callee
    ensures username != c.caller ==> r == c.caller
  {
    if username == c.caller then c.callee else c.caller
  }

  /** The group of the sending side, chosen the same way as the peer. */
  function SenderGroup(c: Call, username: string): (r: string)
    ensures username == c.caller ==> r == c.callerGroup
    ensures username != c.caller ==> r == c.calleeGroup
  {
    if username == c.caller then c.callerGroup else c.calleeGroup
  }

  /** `call_accepted`: `call_id`, `from_user`, `to_user`, `caller_group` and
      `callee_group` are all required (None: a KeyError); the call is stored
      under its id, replacing any call with that id. */
  function Accept(calls: Dict<string, Call>, data: Json): (r: Option<Dict<string, Call>>)
    ensures r.None? <==> !("call_id" in data && "from_user" in data && "to_user" in data
                            && "caller_group" in data && "callee_group" in data)
    ensures r.Some? ==> Lookup(r.value, data["call_id"])
                        == Some(Call(data["from_user"], data["to_user"], data["caller_group"], data["callee_group"]))
  {
    if "call_id" in data && "from_user" in data && "to_user" in data && "caller_group" in data && "callee_group" in data
    then Some(Put(calls, data["call_id"], Call(data["from_user"], data["to_user"], data["caller_group"], data["callee_group"])))
    else None
  }

  /** `Accept` keeps the table valid and every other call as it was. */
  lemma AcceptKeeps(calls: Dict<string, Call>, data: Json, k: string)
    requires Valid(calls) && Accept(calls, data).Some?
    ensures Valid(Accept(calls, data).value)
    ensures k != data["call_id"] ==> Lookup(Accept(calls, data).value, k) == Lookup(calls, k)
  {
    var c := Call(data["from_user"], data["to_user"], data["caller_group"], data["callee_group"]);
    PutValid(calls, data["call_id"], c);
    if k != data["call_id"] {
      PutOther(calls, data["call_id"], c, k);
    }
  }

  /** Deleting a call keeps the table valid and every other call as it was. */
  lemma DelKeeps(calls: Dict<string, Call>, id: string, k: string)
    requires Valid(calls)
    ensures Valid(Del(calls, id)) && !Has(Del(calls, id), id)
    ensures k != id ==> Lookup(Del(calls, id), k) == Lookup(calls, k)
  {
    DelValid(calls, id);
    if k != id {
      DelOther(calls, id, k);
    }
  }

  /** The participants whose group is `sales`: the caller first, then the callee. */
  function SalesOf(c: Call): (r: seq<string>)
    ensures forall u :: u in r <==> (u == c.caller && c.callerGroup == "sales") || (u == c.callee && c.calleeGroup == "sales")
    ensures |r| <= 2
  {
    (if c.callerGroup == "sales" then [c.caller] else []) + (if c.calleeGroup == "sales" then [c.callee] else [])
  }
}
