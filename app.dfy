/**
 * The dashboard's state (src/App.tsx): the tunnel list, the tunnel whose
 * commands dialog is open, and the create form's `loading` flag, as the three
 * request handlers change them.
 *
 * A handler's request is a parameter: its outcome is an ok response carrying
 * the parsed body, a response that is not ok, or a thrown error (network or
 * JSON), which the handlers log and otherwise ignore.
 */
module App {
  import opened Wrappers
  import opened TunnelTypes

  datatype Response<T> = Ok(body: T) | NotOk | Thrown

  /** `tunnels.filter(tunnel => tunnel.id !== id)`: exactly the entries with another id. */
  function WithoutId(ts: seq<Tunnel>, id: string): (r: seq<Tunnel>)
    ensures |r| <= |ts|
    ensures forall t :: t in r <==> t in ts && t.id != id
  {
    if ts == [] then []
    else
      assert forall t :: t in ts <==> t == ts[0] || t in ts[1..];
      if ts[0].id != id then [ts[0]] + WithoutId(ts[1..], id)
      else WithoutId(ts[1..], id)
  }

  /** The filter keeps the order: it distributes over concatenation. */
  lemma {:induction false} WithoutIdAppend(a: seq<Tunnel>, b: seq<Tunnel>, id: string)
    ensures WithoutId(a + b, id) == WithoutId(a, id) + WithoutId(b, id)
  {
    if a == [] {
      assert a + b == b;
    } else {
      assert (a + b)[1..] == a[1..] + b;
      WithoutIdAppend(a[1..], b, id);
    }
  }

  /** A list without the id is left as it is. */
  lemma {:induction false} WithoutAbsentId(ts: seq<Tunnel>, id: string)
    requires forall t :: t in ts ==> t.id != id
    ensures WithoutId(ts, id) == ts
  {
    if ts != [] {
      assert ts[0] in ts;
      assert forall t :: t in ts[1..] ==> t in ts;
      WithoutAbsentId(ts[1..], id);
    }
  }

  /** Deleting twice is deleting once. */
  lemma WithoutIdIdempotent(ts: seq<Tunnel>, id: string)
    ensures WithoutId(WithoutId(ts, id), id) == WithoutId(ts, id)
  {
    WithoutAbsentId(WithoutId(ts, id), id);
  }

  /** Deleting a tunnel just prepended, whose id was new, gives back the list before. */
  lemma CreateThenDeleteRestores(ts: seq<Tunnel>, t: Tunnel)
    requires forall u :: u in ts ==> u.id != t.id
    ensures WithoutId([t] + ts, t.id) == ts
  {
    WithoutIdAppend([t], ts, t.id);
    WithoutAbsentId(ts, t.id);
  }

  class AppState {
    var tunnels: seq<Tunnel>
    var selectedTunnel: Option<Tunnel>
    var loading: bool
    /**
     * The list `handleCreateTunnel` closed over when it was called: the
     * prepend after the await extends this list, not the current one.
     */
    var createBase: seq<Tunnel>

    constructor ()
      ensures tunnels == [] && selectedTunnel == None && !loading
      ensures createBase == []
    {
      tunnels, selectedTunnel, loading, createBase := [], None, false, [];
    }

    /** `fetchTunnels`: an ok response replaces the list; anything else leaves it. */
    method FetchTunnels(outcome: Response<seq<Tunnel>>)
      modifies this
      ensures outcome.Ok? ==> tunnels == outcome.body
      ensures !outcome.Ok? ==> tunnels == old(tunnels)
      ensures selectedTunnel == old(selectedTunnel) && loading == old(loading)
      ensures createBase == old(createBase)
    {
      if outcome.Ok? {
        tunnels := outcome.body;
      }
    }

    /** `handleCreateTunnel` up to its request: the form shows it is busy. */
    method BeginCreate()
      modifies this
      ensures loading
      ensures createBase == old(tunnels)
      ensures tunnels == old(tunnels) && selectedTunnel == old(selectedTunnel)
    {
      loading := true;
      createBase := tunnels;
    }

    /**
     * `handleCreateTunnel` after its request: an ok response puts the new
     * tunnel first and opens its commands dialog; the busy flag is cleared
     * whatever the outcome.
     */
    method FinishCreate(outcome: Response<Tunnel>)
      modifies this
      ensures !loading
      ensures outcome.Ok? ==> tunnels == [outcome.body] + old(createBase) && selectedTunnel == Some(outcome.body)
      ensures !outcome.Ok? ==> tunnels == old(tunnels) && selectedTunnel == old(selectedTunnel)
      ensures createBase == old(createBase)
    {
      if outcome.Ok? {
        tunnels := [outcome.body] + createBase;
        selectedTunnel := Some(outcome.body);
      }
      loading := false;
    }

    /**
     * `handleDeleteTunnel`: an ok response drops every entry with the id; the
     * open commands dialog is left alone, even when it shows that tunnel.
     */
    method DeleteTunnel(id: string, outcome: Response<()>)
      modifies this
      ensures outcome.Ok? ==> tunnels == WithoutId(old(tunnels), id)
      ensures !outcome.Ok? ==> tunnels == old(tunnels)
      ensures selectedTunnel == old(selectedTunnel) && loading == old(loading)
      ensures createBase == old(createBase)
    {
      if outcome.Ok? {
        tunnels := WithoutId(tunnels, id);
      }
    }

    /** The list's "commands" button opens the dialog for that tunnel. */
    method ShowCommands(t: Tunnel)
      modifies this
      ensures selectedTunnel == Some(t)
      ensures tunnels == old(tunnels) && loading == old(loading) && createBase == old(createBase)
    {
      selectedTunnel := Some(t);
    }

    /** The dialog's close button. */
    method CloseCommands()
      modifies this
      ensures selectedTunnel == None
      ensures tunnels == old(tunnels) && loading == old(loading) && createBase == old(createBase)
    {
      selectedTunnel := None;
    }
  }
}
