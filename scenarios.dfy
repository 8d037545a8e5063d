/** A caller's view of a registry entry, proved from the contracts alone. */
module Scenarios {
  import opened Wrappers
  import opened Backend
  import opened Files
  import opened Schema
  import opened Plugins

  /** Without a client every passthrough is unavailable, while stop and decommission succeed. */
  method EntryWithoutClient(manifest: JSONData, fs: FS, ctx: Context, req: QueryDataRequest)
  {
    var p := new Plugin(manifest, fs, External);
    var reply := p.QueryData(ctx, req);
    assert reply == Unavailable();
    var err := p.Start(ctx);
    assert err == Some(NoClientToStart(manifest.id));
    err := p.Stop(ctx);
    assert err.None?;
    err := p.Decommission();
    assert err.None?;
    err := p.Decommission();
    assert err.None? && !p.IsDecommissioned() && !p.IsManaged() && !p.Exited();
  }

  /** Registering a client, replacing it, then detaching it; a projection exported before is untouched. */
  method EntryWithClients(manifest: JSONData, fs: FS, b1: Behaviour, b2: Behaviour, ctx: Context, req: QueryDataRequest)
  {
    var p := new Plugin(manifest, fs, External);
    var before := p.ToDTO();
    assert !before.SupportsStreaming() && before.Upgradeable();

    // the first client answers the query, after seeing exactly that one call
    var c1 := new BackendClient(b1);
    p.RegisterClient(c1);
    var reply := p.QueryData(ctx, req);
    assert c1.history == [QueryDataCall(ctx, req)];
    assert reply == b1.queryData([QueryDataCall(ctx, req)]);

    // a second registration replaces the first client; the first one hears nothing more
    var c2 := new BackendClient(b2);
    p.RegisterClient(c2);
    reply := p.QueryData(ctx, req);
    assert reply == b2.queryData([QueryDataCall(ctx, req)]);
    assert c1.history == [QueryDataCall(ctx, req)];

    // the earlier projection is a value: later changes do not reach it
    assert !before.SupportsStreaming();
    assert p.ToDTO() == before.(supportsStreaming := true);

    // registering nil detaches the client: the entry is back to its first projection
    p.RegisterClient(null);
    reply := p.QueryData(ctx, req);
    assert reply == Unavailable();
    assert c2.history == [QueryDataCall(ctx, req)];
    assert p.ToDTO() == before;
  }
}
