/**
  ansible/ansible.go: the Ansible inventory text built from an EC2 dump
  (region to instances). Each instance with a usable "Name" tag and a
  non-empty host becomes one line under its region's header; regions come
  in ascending order, as `text/template` ranges over a map.
*/
module Ansible {
  import opened Wrappers
  import opened Strings

  /** An EC2 tag. */
  datatype Tag = Tag(key: string, value: string)

  /** The parts of an EC2 instance the inventory reads: its tags and both DNS names. */
  datatype Instance = Instance(tags: seq<Tag>, privateDnsName: string, publicDnsName: string)

  /** `ec2AnsibleEntry`: one inventory line's name and host. */
  datatype Entry = Entry(name: string, host: string)

  const NameTagError := "Invalid or Empty Name Tag"

  /** A "Name" tag with a non-empty value: the only tag the name is taken from. */
  predicate UsableName(t: Tag)
  {
    t.key == "Name" && t.value != ""
  }

  /**
    The name of an instance: the value of its first usable "Name" tag with
    every space removed, or the name-tag error when there is none.
  */
  function TagName(tags: seq<Tag>): (r: Result<string>)
    ensures r.Ok? <==> exists i :: 0 <= i < |tags| && UsableName(tags[i])
    ensures r.Ok? ==> ' ' !in r.value
    ensures r.Err? ==> r.error == NameTagError
    decreases |tags|
  {
    if tags == [] then Err(NameTagError)
    else if UsableName(tags[0]) then Ok(RemoveAll(tags[0].value, ' '))
    else
      var r := TagName(tags[1..]);
      assert forall i :: 1 <= i < |tags| ==> tags[i] == tags[1..][i - 1];
      r
  }

  /** The name comes from the first usable "Name" tag; earlier "Name" tags with an empty value are skipped. */
  lemma {:induction false} TagNameIsFirst(tags: seq<Tag>)
    requires TagName(tags).Ok?
    ensures exists i ::
      && 0 <= i < |tags| && UsableName(tags[i])
      && (forall j :: 0 <= j < i ==> !UsableName(tags[j]))
      && TagName(tags).value == RemoveAll(tags[i].value, ' ')
    decreases |tags|
  {
    if !UsableName(tags[0]) {
      TagNameIsFirst(tags[1..]);
      var i :| 0 <= i < |tags[1..]| && UsableName(tags[1..][i])
        && (forall j :: 0 <= j < i ==> !UsableName(tags[1..][j]))
        && TagName(tags[1..]).value == RemoveAll(tags[1..][i].value, ' ');
      assert forall j :: 1 <= j < i + 1 ==> tags[j] == tags[1..][j - 1];
      assert UsableName(tags[i + 1]);
    } else {
      assert UsableName(tags[0]);
    }
  }

  /**
    `extractNamefromEC2Tags`: the search over the tags with an early return.
    On failure the name is empty.
  */
  method ExtractNamefromEC2Tags(tags: seq<Tag>) returns (name: string, err: Option<string>)
    ensures err.None? <==> TagName(tags).Ok?
    ensures err.None? ==> name == TagName(tags).value
    ensures err.Some? ==> name == "" && err == Some(NameTagError)
  {
    name := "";
    for k := 0 to |tags|
      invariant TagName(tags[k..]) == TagName(tags)
      invariant name == ""
    {
      assert tags[k..][1..] == tags[k + 1..];
      var t := tags[k];
      if t.key == "Name" {
        name := t.value;
        if name == "" {
          continue;
        }
        name := RemoveAll(name, ' ');
        return name, None;
      }
    }
    return name, Some(NameTagError);
  }

  /** The host an entry points at: the private DNS name when `private` is set, the public one otherwise. */
  function Host(i: Instance, private: bool): string
  {
    if private then i.privateDnsName else i.publicDnsName
  }

  /** The entries of a region: its instances in order, keeping those with a name and a non-empty host. */
  function Entries(instances: seq<Instance>, private: bool): (es: seq<Entry>)
    ensures |es| <= |instances|
    ensures forall e :: e in es ==> e.host != "" && ' ' !in e.name
    decreases |instances|
  {
    if instances == [] then []
    else
      var last := instances[|instances| - 1];
      var name := TagName(last.tags);
      Entries(instances[..|instances| - 1], private)
        + (if name.Ok? && Host(last, private) != "" then [Entry(name.value, Host(last, private))] else [])
  }

  /** Filtering is instance by instance: the entries of two runs of instances are the entries of each, in order. */
  lemma {:induction false} EntriesAppend(xs: seq<Instance>, ys: seq<Instance>, private: bool)
    ensures Entries(xs + ys, private) == Entries(xs, private) + Entries(ys, private)
    decreases |ys|
  {
    if ys == [] {
      assert xs + ys == xs;
    } else {
      var init := ys[..|ys| - 1];
      assert (xs + ys)[..|xs + ys| - 1] == xs + init;
      assert (xs + ys)[|xs + ys| - 1] == ys[|ys| - 1];
      EntriesAppend(xs, init, private);
    }
  }

  /** One instance gives an entry exactly when it has a usable name tag and a non-empty host. */
  lemma EntryOfInstance(i: Instance, private: bool)
    ensures Entries([i], private) ==
      if TagName(i.tags).Ok? && Host(i, private) != "" then [Entry(TagName(i.tags).value, Host(i, private))] else []
  {
    assert [i][..0] == [];
  }

  /** The `dump` map: every region of the EC2 dump with its entries, even when none is left. */
  function Dump(ec2dump: map<string, seq<Instance>>, private: bool): (dump: map<string, seq<Entry>>)
    ensures dump.Keys == ec2dump.Keys
  {
    map r | r in ec2dump :: Entries(ec2dump[r], private)
  }

  /** One inventory line: "\n<name> ansible_ssh_host=<host>". */
  function Line(e: Entry): string
  {
    "\n" + e.name + " ansible_ssh_host=" + e.host
  }

  function Lines(es: seq<Entry>): string
    decreases |es|
  {
    if es == [] then "" else Lines(es[..|es| - 1]) + Line(es[|es| - 1])
  }

  /** A region's section: "\n\n[<region>]" and then its lines. */
  function Section(region: string, es: seq<Entry>): string
  {
    "\n\n[" + region + "]" + Lines(es)
  }

  function Sections(keys: seq<string>, dump: map<string, seq<Entry>>): string
    requires forall k :: k in keys ==> k in dump
    decreases |keys|
  {
    if keys == [] then ""
    else
      var last := keys[|keys| - 1];
      Sections(keys[..|keys| - 1], dump) + Section(last, dump[last])
  }

  /**
    The text the inventory template produces for `dump` when its keys come
    in the order `keys`: the sections one after the other, then "\n\t". The
    trim markers of the template remove every other blank.
  */
  function Render(keys: seq<string>, dump: map<string, seq<Entry>>): (r: string)
    requires forall k :: k in keys ==> k in dump
    ensures |r| >= 2 && r[|r| - 2..] == "\n\t"
    ensures keys != [] ==> "\n\n[" + keys[0] + "]" <= r
  {
    if keys != [] then SectionsOpenWithFirst(keys, dump); Sections(keys, dump) + "\n\t"
    else Sections(keys, dump) + "\n\t"
  }

  /** The sections open with the first region's header. */
  lemma {:induction false} SectionsOpenWithFirst(keys: seq<string>, dump: map<string, seq<Entry>>)
    requires forall k :: k in keys ==> k in dump
    requires keys != []
    ensures "\n\n[" + keys[0] + "]" <= Sections(keys, dump)
    decreases |keys|
  {
    var init, last := keys[..|keys| - 1], keys[|keys| - 1];
    var header := "\n\n[" + keys[0] + "]";
    if init == [] {
      assert Sections(keys, dump) == Section(last, dump[last]);
    } else {
      assert init[0] == keys[0];
      SectionsOpenWithFirst(init, dump);
      var front := Sections(init, dump);
      assert header == front[..|header|];
      assert Sections(keys, dump) == front + Section(last, dump[last]);
    }
  }

  /** With no region at all, the inventory is just the trailing "\n\t". */
  lemma RenderEmpty(dump: map<string, seq<Entry>>)
    ensures Render([], dump) == "\n\t"
  {
  }

  /** One region whose instances were all dropped, then one region with one entry. */
  lemma RenderExample()
    ensures Render(["eu-west-1", "us-east-1"], map["eu-west-1" := [], "us-east-1" := [Entry("web", "h1")]])
      == "\n\n[eu-west-1]" + "\n\n[us-east-1]" + "\nweb ansible_ssh_host=h1" + "\n\t"
  {
    var dump := map["eu-west-1" := [], "us-east-1" := [Entry("web", "h1")]];
    var keys := ["eu-west-1", "us-east-1"];
    var e := Entry("web", "h1");
    assert keys[..1] == ["eu-west-1"];
    assert ["eu-west-1"][..0] == [];
    assert [e][..0] == [];
    assert Lines([e]) == "\nweb ansible_ssh_host=h1";
    assert Section("eu-west-1", []) == "\n\n[eu-west-1]";
    assert Section("us-east-1", [e]) == "\n\n[us-east-1]" + "\nweb ansible_ssh_host=h1";
    assert Sections(["eu-west-1"], dump) == "\n\n[eu-west-1]";
    assert Sections(keys, dump) == "\n\n[eu-west-1]" + ("\n\n[us-east-1]" + "\nweb ansible_ssh_host=h1");
  }

  /** A "Name" value made only of spaces passes the emptiness test and yields the empty name. */
  lemma BlankNameIsEmpty()
    ensures TagName([Tag("Name", "  ")]) == Ok("")
  {
    assert RemoveAll(" ", ' ') == "";
  }

  /** Each line of a region sits in that region's section. */
  lemma {:induction false} LineInLines(es: seq<Entry>, j: nat)
    requires j < |es|
    ensures exists p, q :: Lines(es) == p + Line(es[j]) + q
    decreases |es|
  {
    var init := es[..|es| - 1];
    if j == |es| - 1 {
      assert Lines(es) == Lines(init) + Line(es[j]) + "";
    } else {
      LineInLines(init, j);
      var p, q :| Lines(init) == p + Line(init[j]) + q;
      assert Lines(es) == p + Line(es[j]) + (q + Line(es[|es| - 1]));
    }
  }

  lemma {:induction false} SectionInSections(keys: seq<string>, dump: map<string, seq<Entry>>, i: nat)
    requires forall k :: k in keys ==> k in dump
    requires i < |keys|
    ensures exists p, q :: Sections(keys, dump) == p + Section(keys[i], dump[keys[i]]) + q
    decreases |keys|
  {
    var init := keys[..|keys| - 1];
    var last := keys[|keys| - 1];
    if i == |keys| - 1 {
      Regroup(Sections(init, dump), Section(last, dump[last]), "", "");
    } else {
      assert init[i] == keys[i];
      SectionInSections(init, dump, i);
      var p, q :| Sections(init, dump) == p + Section(init[i], dump[init[i]]) + q;
      Regroup(p, Section(keys[i], dump[keys[i]]), q, Section(last, dump[last]));
    }
  }

  /** Concatenation regrouped: the witnesses of the section lemmas. */
  lemma Regroup(p: string, x: string, q: string, y: string)
    ensures p + x + q + y == p + x + (q + y)
    ensures p + x + "" == p + x
  {
  }

  /** Every region's section is part of the inventory, the header included even when it has no line. */
  lemma SectionInRender(keys: seq<string>, dump: map<string, seq<Entry>>, i: nat)
    requires forall k :: k in keys ==> k in dump
    requires i < |keys|
    ensures exists p, q :: Render(keys, dump) == p + Section(keys[i], dump[keys[i]]) + q
  {
    SectionInSections(keys, dump, i);
    var p, q :| Sections(keys, dump) == p + Section(keys[i], dump[keys[i]]) + q;
    Regroup(p, Section(keys[i], dump[keys[i]]), q, "\n\t");
  }

  /** The template sorts the keys, so the inventory does not depend on how the map was built. */
  lemma RenderSorted(a: seq<string>, b: seq<string>, dump: map<string, seq<Entry>>)
    requires StrictlySorted(a) && StrictlySorted(b)
    requires forall k :: k in a <==> k in dump
    requires forall k :: k in b <==> k in dump
    ensures Render(a, dump) == Render(b, dump)
  {
    SortedUnique(a, b);
  }

  /** A non-empty set of strings has a least element. */
  lemma {:induction false} HasLeast(s: set<string>) returns (m: string)
    requires s != {}
    ensures m in s && forall k :: k in s && k != m ==> Less(m, k)
    decreases s
  {
    var x :| x in s;
    if s == {x} {
      m := x;
    } else {
      var rest := HasLeast(s - {x});
      if Less(x, rest) {
        m := x;
        forall k | k in s && k != m
          ensures Less(m, k)
        {
          if k != rest {
            LessTransitive(x, rest, k);
          }
        }
      } else {
        LessTotal(x, rest);
        m := rest;
      }
    }
  }

  /** The key order of the template's `range`: the map's keys, ascending. */
  method SortedKeys<V>(dump: map<string, V>) returns (keys: seq<string>)
    ensures StrictlySorted(keys)
    ensures forall k :: k in keys <==> k in dump
  {
    keys := [];
    var left := dump.Keys;
    while left != {}
      invariant left <= dump.Keys
      invariant forall k :: k in keys <==> k in dump && k !in left
      invariant StrictlySorted(keys)
      invariant forall i, k :: 0 <= i < |keys| && k in left ==> Less(keys[i], k)
      decreases left
    {
      ghost var least := HasLeast(left);
      var m :| m in left && forall k :: k in left && k != m ==> Less(m, k);
      keys := keys + [m];
      left := left - {m};
    }
  }

  /** The loop over one region's instances: each gives its entry, or is skipped. */
  method RegionEntries(d: seq<Instance>, private: bool) returns (regionData: seq<Entry>)
    ensures regionData == Entries(d, private)
  {
    regionData := [];
    for k := 0 to |d|
      invariant regionData == Entries(d[..k], private)
    {
      assert d[..k + 1][..k] == d[..k];
      var i := d[k];
      var ansibleHost: string;
      if private {
        ansibleHost := i.privateDnsName;
      } else {
        ansibleHost := i.publicDnsName;
      }
      var name, nameErr := ExtractNamefromEC2Tags(i.tags);
      if nameErr.Some? {
        continue;
      }
      var e := Entry(name, ansibleHost);
      if e.host == "" {
        continue;
      }
      regionData := regionData + [e];
    }
    assert d[..|d|] == d;
  }

  /**
    `BuildEC2Inventory`: the `dump` of entries per region, then the
    template over it. Template parsing and execution cannot fail here, so
    the error is always `nil`.
  */
  method BuildEC2Inventory(ec2dump: map<string, seq<Instance>>, private: bool)
    returns (inventory: string, err: Option<string>, ghost keys: seq<string>)
    ensures err == None
    ensures StrictlySorted(keys) && forall k :: k in keys <==> k in ec2dump
    ensures inventory == Render(keys, Dump(ec2dump, private))
  {
    var dump: map<string, seq<Entry>> := map[];
    var left := ec2dump.Keys;
    while left != {}
      invariant left <= ec2dump.Keys
      invariant dump.Keys == ec2dump.Keys - left
      invariant forall r :: r in dump ==> dump[r] == Entries(ec2dump[r], private)
      decreases left
    {
      var r :| r in left;
      var regionData := RegionEntries(ec2dump[r], private);
      dump := dump[r := regionData];
      left := left - {r};
    }
    assert dump == Dump(ec2dump, private);
    var sorted := SortedKeys(dump);
    keys := sorted;
    inventory := Render(sorted, dump);
    err := None;
  }
}
