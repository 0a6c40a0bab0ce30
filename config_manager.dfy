/** `ConfigManager`: the shaping of the REST configuration replies. The HTTP calls are
    left out; their replies come in as parameters. */
module ConfigManagers {
  import opened Outcomes
  import opened Text
  import opened Dicts

  /** One item of the reply's `entry` list: `name` and `content` may be missing. */
  datatype RawEntry<V> = RawEntry(name: Option<string>, content: Option<Dict<V>>)

  /** The decoded JSON reply: its `entry` list may be missing. */
  datatype Reply<V> = Reply(entry: Option<seq<RawEntry<V>>>)

  /** The entries `parse_configuration` keeps: those with a non-empty name. */
  predicate Named<V>(e: RawEntry<V>) {
    e.name.Some? && e.name.value != ""
  }

  /** The content keys the management API adds (`eai:acl`, `eai:attributes`, ...). */
  predicate Internal(key: string) {
    IsPrefix("eai:", key)
  }

  /** The stanza built from one entry's content: the pairs whose key does not start
      with `eai:`, in order; missing content is `{}`. */
  function Stanza<V>(content: Option<Dict<V>>): Dict<V> {
    if content.None? then [] else Visible(content.value)
  }

  function Visible<V>(c: Dict<V>): (r: Dict<V>)
    ensures |r| <= |c|
    decreases |c|
  {
    if c == [] then []
    else (if Internal(c[0].0) then [] else [c[0]]) + Visible(c[1..])
  }

  /** A stanza keeps exactly the content keys that are not internal, with their values. */
  lemma {:induction false} VisibleLookup<V>(c: Dict<V>, k: string)
    ensures Lookup(Visible(c), k) == if Internal(k) then None else Lookup(c, k)
    decreases |c|
  {
    if c != [] {
      VisibleLookup(c[1..], k);
      var rest := Visible(c[1..]);
      if Internal(c[0].0) {
        assert Visible(c) == rest;
      } else {
        assert Visible(c) == [c[0]] + rest;
        assert ([c[0]] + rest)[1..] == rest;
      }
    }
  }

  /** The keys of a stanza are the non-internal content keys, in their order. */
  lemma {:induction false} VisibleKeys<V>(c: Dict<V>)
    ensures forall k :: k in Keys(Visible(c)) <==> k in Keys(c) && !Internal(k)
    decreases |c|
  {
    if c != [] {
      VisibleKeys(c[1..]);
      assert Keys(c) == [c[0].0] + Keys(c[1..]);
      var head: Dict<V> := if Internal(c[0].0) then [] else [c[0]];
      assert Keys(Visible(c)) == Keys(head) + Keys(Visible(c[1..]));
    }
  }

  /** The dictionary the loop of `parse_configuration` has built after `entries`. */
  function Parsed<V>(entries: seq<RawEntry<V>>): (r: Dict<Dict<V>>)
    ensures |r| <= |entries|
    decreases |entries|
  {
    if entries == [] then []
    else
      var acc := Parsed(entries[..|entries| - 1]);
      var e := entries[|entries| - 1];
      if Named(e) then Set(acc, e.name.value, Stanza(e.content)) else acc
  }

  /** The configuration is a dictionary: every stanza name occurs once. */
  lemma {:induction false} ParsedUnique<V>(entries: seq<RawEntry<V>>)
    ensures UniqueKeys(Parsed(entries))
    decreases |entries|
  {
    if entries != [] {
      var acc := Parsed(entries[..|entries| - 1]);
      var e := entries[|entries| - 1];
      ParsedUnique(entries[..|entries| - 1]);
      if Named(e) {
        SetUnique(acc, e.name.value, Stanza(e.content));
      }
    }
  }

  /** The names of the named entries, each at its first occurrence. */
  function FirstNames<V>(entries: seq<RawEntry<V>>): seq<string>
    decreases |entries|
  {
    if entries == [] then []
    else
      var ns := FirstNames(entries[..|entries| - 1]);
      var e := entries[|entries| - 1];
      if Named(e) && e.name.value !in ns then ns + [e.name.value] else ns
  }

  /** `configuration[name] = stanza` keeps the position a name got when it was first
      assigned, so the stanzas come in order of first occurrence. */
  lemma {:induction false} ParsedOrder<V>(entries: seq<RawEntry<V>>)
    ensures Keys(Parsed(entries)) == FirstNames(entries)
    decreases |entries|
  {
    if entries != [] {
      var init := entries[..|entries| - 1];
      var e := entries[|entries| - 1];
      ParsedOrder(init);
      if Named(e) {
        SetKeys(Parsed(init), e.name.value, Stanza(e.content));
      }
    }
  }

  /** `parse_configuration(response_data)`: `{}` when `entry` is missing or empty. */
  function Configuration<V>(reply: Reply<V>): (r: Dict<Dict<V>>)
    ensures reply.entry.None? || reply.entry.value == [] ==> r == []
  {
    if reply.entry.None? then [] else Parsed(reply.entry.value)
  }

  /** A name is in the configuration iff some entry carries it; entries without a name
      never contribute. */
  lemma {:induction false} ParsedHas<V>(entries: seq<RawEntry<V>>, k: string)
    ensures Lookup(Parsed(entries), k).Some? <==>
              exists i :: 0 <= i < |entries| && Named(entries[i]) && entries[i].name.value == k
    decreases |entries|
  {
    if entries != [] {
      var n := |entries| - 1;
      var init := entries[..n];
      var e := entries[n];
      ParsedHas(init, k);
      if Named(e) {
        SetLookup(Parsed(init), e.name.value, Stanza(e.content), k);
      }
      if exists i :: 0 <= i < |entries| && Named(entries[i]) && entries[i].name.value == k {
        var i :| 0 <= i < |entries| && Named(entries[i]) && entries[i].name.value == k;
        if i < n {
          assert init[i] == entries[i];
        }
      }
      if Lookup(Parsed(init), k).Some? {
        var i :| 0 <= i < n && Named(init[i]) && init[i].name.value == k;
        assert entries[i] == init[i];
      }
    }
  }

  /** The last entry named `k` decides the stanza stored under `k`: a later entry with the
      same name overwrites an earlier one. */
  lemma {:induction false} ParsedLast<V>(entries: seq<RawEntry<V>>, i: nat)
    requires i < |entries| && Named(entries[i])
    requires forall j :: i < j < |entries| ==> entries[j].name != entries[i].name
    ensures Lookup(Parsed(entries), entries[i].name.value) == Some(Stanza(entries[i].content))
    decreases |entries|
  {
    var n := |entries| - 1;
    var init := entries[..n];
    var e := entries[n];
    var k := entries[i].name.value;
    var acc := Parsed(init);
    if Named(e) {
      assert Parsed(entries) == Set(acc, e.name.value, Stanza(e.content));
      SetLookup(acc, e.name.value, Stanza(e.content), k);
    } else {
      assert Parsed(entries) == acc;
    }
    if i < n {
      assert init[i] == entries[i];
      forall j | i < j < |init| ensures init[j].name != init[i].name {
        assert init[j] == entries[j];
      }
      ParsedLast(init, i);
    }
  }

  /** Python's `sub in s` for one of the filter strings. */
  predicate Wanted(key: string, filters: seq<string>) {
    exists f :: f in filters && Contains(key, f)
  }

  /** The comprehension of `filter`: the pairs whose key contains some filter string. */
  function Kept<V>(d: Dict<V>, filters: seq<string>): (r: Dict<V>)
    ensures |r| <= |d|
    decreases |d|
  {
    if d == [] then []
    else (if Wanted(d[0].0, filters) then [d[0]] else []) + Kept(d[1..], filters)
  }

  /** `filter` keeps exactly the wanted keys, with their values unchanged. */
  lemma {:induction false} KeptLookup<V>(d: Dict<V>, filters: seq<string>, k: string)
    ensures Lookup(Kept(d, filters), k) == if Wanted(k, filters) then Lookup(d, k) else None
    decreases |d|
  {
    if d != [] {
      KeptLookup(d[1..], filters, k);
      var rest := Kept(d[1..], filters);
      if Wanted(d[0].0, filters) {
        assert Kept(d, filters) == [d[0]] + rest;
        assert ([d[0]] + rest)[1..] == rest;
      } else {
        assert Kept(d, filters) == rest;
      }
    }
  }

  /** The first kept pair is the first pair of `d` whose key is wanted. */
  lemma {:induction false} KeptFirst<V>(d: Dict<V>, filters: seq<string>)
    ensures Kept(d, filters) == [] <==> forall i :: 0 <= i < |d| ==> !Wanted(d[i].0, filters)
    ensures Kept(d, filters) != [] ==>
              exists i :: 0 <= i < |d| && Kept(d, filters)[0] == d[i] && Wanted(d[i].0, filters) &&
                forall j :: 0 <= j < i ==> !Wanted(d[j].0, filters)
    decreases |d|
  {
    if d != [] {
      KeptFirst(d[1..], filters);
      if !Wanted(d[0].0, filters) {
        assert Kept(d, filters) == Kept(d[1..], filters);
        forall i | 0 < i < |d| ensures d[1..][i - 1] == d[i] {
        }
        if Kept(d, filters) != [] {
          var i :| 0 <= i < |d| - 1 && Kept(d[1..], filters)[0] == d[1..][i] && Wanted(d[1..][i].0, filters) &&
                   forall j :: 0 <= j < i ==> !Wanted(d[1..][j].0, filters);
          assert forall j :: 0 <= j < i + 1 ==> !Wanted(d[j].0, filters) by {
            forall j | 0 <= j < i + 1 ensures !Wanted(d[j].0, filters) {
              if j > 0 {
                assert d[j] == d[1..][j - 1];
              }
            }
          }
        }
      } else {
        assert Kept(d, filters)[0] == d[0];
      }
    }
  }

  /** What `filter` returns: the filtered dictionary, or with `single_stanza` the value
      of its first key. */
  datatype Filtered<V> = Stanzas(stanzas: Dict<V>) | First(value: V)

  /** `filter(response_data, keys_to_filter, single_stanza)`: `next(iter({}))` raises
      StopIteration when nothing is kept. */
  function Filter<V>(d: Dict<V>, filters: seq<string>, single: bool): (r: Result<Filtered<V>>)
    ensures !single ==> r == Ok(Stanzas(Kept(d, filters)))
    ensures single ==> (r.Err? <==> Kept(d, filters) == [])
    ensures r.Err? ==> r.error == StopIteration
    ensures single && r.Ok? ==> r.value == First(Kept(d, filters)[0].1)
  {
    if !single then Ok(Stanzas(Kept(d, filters)))
    else if Kept(d, filters) == [] then Err(StopIteration)
    else Ok(First(Kept(d, filters)[0].1))
  }

  /** With `single_stanza`, the result is the value of the first wanted key in the
      reply's order, and StopIteration when no key is wanted. */
  lemma FilterSingle<V>(d: Dict<V>, filters: seq<string>)
    ensures Filter(d, filters, true).Err? <==> forall i :: 0 <= i < |d| ==> !Wanted(d[i].0, filters)
    ensures Filter(d, filters, true).Ok? ==>
              exists i :: 0 <= i < |d| && Filter(d, filters, true).value == First(d[i].1) &&
                Wanted(d[i].0, filters) && forall j :: 0 <= j < i ==> !Wanted(d[j].0, filters)
  {
    KeptFirst(d, filters);
  }

  /** `get_config` once the reply is in: filtering happens only for a truthy filter;
      otherwise `single_stanza` is ignored and the whole configuration is returned. */
  function GetConfigStep<V>(reply: Reply<V>, single: bool, filters: Option<seq<string>>): (r: Result<Filtered<Dict<V>>>)
    ensures (filters.None? || filters.value == []) ==> r == Ok(Stanzas(Configuration(reply)))
    ensures filters.Some? && filters.value != [] ==> r == Filter(Configuration(reply), filters.value, single)
  {
    var c := Configuration(reply);
    if filters.Some? && filters.value != [] then Filter(c, filters.value, single) else Ok(Stanzas(c))
  }

  /** The `Response` namedtuple `delete_all_config` returns. */
  datatype Outcome3 = Outcome3(statusCode: int, reason: string, text: string)

  const Success := Outcome3(200, "OK", "Success")
  const Failure := Outcome3(404, "Not Found", "Failure")

  /** The aggregation of the collected status codes. */
  function Aggregate(codes: seq<int>): (r: Outcome3)
    ensures r == Success || r == Failure
  {
    if forall i :: 0 <= i < |codes| ==> codes[i] == 200 then Success else Failure
  }

  /** Success iff every delete answered 200; no stanza at all is a success. */
  lemma AggregateIff(codes: seq<int>)
    ensures Aggregate(codes) == Success <==> (forall c :: c in codes ==> c == 200)
    ensures codes == [] ==> Aggregate(codes) == Success
  {
    if Aggregate(codes) != Success {
      var i :| 0 <= i < |codes| && codes[i] != 200;
      assert codes[i] in codes;
    }
  }

  /** The status codes the deletes of `stanzas` answer, in order. */
  function Statuses(stanzas: seq<string>, status: string -> int): (codes: seq<int>)
    ensures |codes| == |stanzas|
    ensures forall i :: 0 <= i < |stanzas| ==> codes[i] == status(stanzas[i])
  {
    seq(|stanzas|, i requires 0 <= i < |stanzas| => status(stanzas[i]))
  }

  /** The HTTP request body of `post_config`/`update_config`: the caller's dict, which
      both methods change in place. */
  class RequestData {
    var fields: Dict<string>

    constructor (fields: Dict<string>)
      ensures this.fields == fields
    {
      this.fields := fields;
    }
  }

  class ConfigManager {
    const params: Dict<string>
    const creds: (string, string)
    const url: string

    /** The query parameters are `count=0&output_mode=json`; the count is kept as the
        text it is encoded to. */
    constructor (username: string, password: string, url: string)
      ensures params == [("count", "0"), ("output_mode", "json")]
      ensures creds == (username, password) && this.url == url
    {
      params := [("count", "0"), ("output_mode", "json")];
      creds := (username, password);
      this.url := url;
    }

    /** `parse_configuration`: the for loop over the entries. */
    method ParseConfiguration<V>(reply: Reply<V>) returns (configuration: Dict<Dict<V>>)
      ensures configuration == Configuration(reply)
    {
      configuration := [];
      if reply.entry.None? || reply.entry.value == [] {
        return;
      }
      var entries := reply.entry.value;
      var i := 0;
      while i < |entries|
        invariant 0 <= i <= |entries|
        invariant configuration == Parsed(entries[..i])
      {
        var e := entries[i];
        assert entries[..i + 1][..i] == entries[..i];
        if Named(e) {
          configuration := Set(configuration, e.name.value, Stanza(e.content));
        }
        i := i + 1;
      }
      assert entries[..i] == entries;
    }

    /** `get_config(url, single_stanza, filter)`, given the decoded reply of the GET. */
    method GetConfig<V>(reply: Reply<V>, single: bool, filters: Option<seq<string>>) returns (r: Result<Filtered<Dict<V>>>)
      ensures r == GetConfigStep(reply, single, filters)
    {
      var configuration := ParseConfiguration(reply);
      if filters.Some? && filters.value != [] {
        r := Filter(configuration, filters.value, single);
      } else {
        r := Ok(Stanzas(configuration));
      }
    }

    /** `post_config`: sets `output_mode` to `json` in the caller's dict before sending it. */
    method PostConfig(data: RequestData)
      modifies data
      ensures data.fields == Set(old(data.fields), "output_mode", "json")
    {
      data.fields := Set(data.fields, "output_mode", "json");
    }

    /** `update_config`: the same change to the caller's dict. */
    method UpdateConfig(data: RequestData)
      modifies data
      ensures data.fields == Set(old(data.fields), "output_mode", "json")
    {
      data.fields := Set(data.fields, "output_mode", "json");
    }

    /** `delete_all_config(url, filter)`: delete every stanza `get_config` lists and
        aggregate the answers; `status` stands for the status code each DELETE answers. */
    method DeleteAllConfig<V>(reply: Reply<V>, filters: Option<seq<string>>, status: string -> int)
      returns (r: Outcome3)
      ensures GetConfigStep(reply, false, filters).Ok? && GetConfigStep(reply, false, filters).value.Stanzas?
      ensures r == Aggregate(Statuses(Keys(GetConfigStep(reply, false, filters).value.stanzas), status))
    {
      var found := GetConfig(reply, false, filters);
      var all := Keys(found.value.stanzas);
      var codes: seq<int> := [];
      var i := 0;
      while i < |all|
        invariant 0 <= i <= |all|
        invariant codes == Statuses(all[..i], status)
      {
        codes := codes + [status(all[i])];
        i := i + 1;
      }
      assert all[..i] == all;
      if forall k :: 0 <= k < |codes| ==> codes[k] == 200 {
        r := Success;
      } else {
        r := Failure;
      }
    }
  }

  /** After `post_config` or `update_config`, the body asks for JSON and every other
      field is what the caller put there. */
  lemma OutputModeSet(fields: Dict<string>, k: string)
    ensures Lookup(Set(fields, "output_mode", "json"), "output_mode") == Some("json")
    ensures k != "output_mode" ==> Lookup(Set(fields, "output_mode", "json"), k) == Lookup(fields, k)
  {
    SetLookup(fields, "output_mode", "json", "output_mode");
    SetLookup(fields, "output_mode", "json", k);
  }
}
