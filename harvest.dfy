/**
 * The property harvester's specification: of the properties a pre-build
 * targets file appended while it was built, those whose name starts with
 * `Custom` are copied, in order, into the global property table.
 */
module Harvest {
  import opened MSBuild

  const CustomPrefix: string := "Custom"

  /** `name.StartsWith("Custom")`. */
  predicate IsCustom(name: string)
  {
    |CustomPrefix| <= |name| && name[..|CustomPrefix|] == CustomPrefix
  }

  /** The properties at positions `watermark` and beyond: those appended by the build. */
  function Appended(post: seq<Property>, watermark: nat): seq<Property>
  {
    if watermark < |post| then post[watermark..] else []
  }

  /** The appended properties are the ones at positions from the watermark on, in order. */
  lemma AppendedAt(post: seq<Property>, watermark: nat, k: nat)
    requires watermark + k < |post|
    ensures k < |Appended(post, watermark)| && Appended(post, watermark)[k] == post[watermark + k]
  {
  }

  /** One step of the harvest loop. */
  function Promote(table: map<string, string>, p: Property): map<string, string>
  {
    if IsCustom(p.name) then table[p.name := p.value] else table
  }

  /** The global table after promoting `props` in order. */
  function PromoteAll(table: map<string, string>, props: seq<Property>): map<string, string>
    decreases |props|
  {
    if props == [] then table
    else Promote(PromoteAll(table, props[..|props| - 1]), props[|props| - 1])
  }

  /** Harvesting one more property is one more step of the loop. */
  lemma PromoteAllSnoc(table: map<string, string>, props: seq<Property>, p: Property)
    ensures PromoteAll(table, props + [p]) == Promote(PromoteAll(table, props), p)
  {
    assert (props + [p])[..|props|] == props;
  }

  /** The names `props` promotes. */
  function CustomNames(props: seq<Property>): set<string>
  {
    set p | p in props && IsCustom(p.name) :: p.name
  }

  /** Harvesting adds exactly the `Custom` names and never removes an entry. */
  lemma {:induction false} PromoteAllKeys(table: map<string, string>, props: seq<Property>)
    ensures PromoteAll(table, props).Keys == table.Keys + CustomNames(props)
    decreases |props|
  {
    if props != [] {
      var init := props[..|props| - 1];
      PromoteAllKeys(table, init);
      assert props == init + [props[|props| - 1]];
      assert CustomNames(props) == CustomNames(init) + CustomNames([props[|props| - 1]]);
    }
  }

  /** A promoted name holds the value of the last `Custom` property of that name. */
  lemma {:induction false} LastValueWins(table: map<string, string>, props: seq<Property>, k: nat)
    requires k < |props| && IsCustom(props[k].name)
    requires forall j :: k < j < |props| ==> props[j].name != props[k].name
    ensures props[k].name in PromoteAll(table, props)
    ensures PromoteAll(table, props)[props[k].name] == props[k].value
    decreases |props|
  {
    if k < |props| - 1 {
      LastValueWins(table, props[..|props| - 1], k);
    }
  }

  /** A name that nothing promotes keeps its entry, or its absence. */
  lemma {:induction false} OthersUnchanged(table: map<string, string>, props: seq<Property>, name: string)
    requires name !in CustomNames(props)
    ensures name in PromoteAll(table, props) <==> name in table
    ensures name in table ==> PromoteAll(table, props)[name] == table[name]
    decreases |props|
  {
    if props != [] {
      var init := props[..|props| - 1];
      assert CustomNames(init) <= CustomNames(props) by {
        forall n | n in CustomNames(init) ensures n in CustomNames(props) {
          var p :| p in init && IsCustom(p.name) && p.name == n;
          assert p in props;
        }
      }
      OthersUnchanged(table, init, name);
      assert props[|props| - 1] in props;
    }
  }

  /** Properties without the `Custom` prefix never reach the table. */
  lemma NonCustomNeverPromoted(table: map<string, string>, props: seq<Property>, name: string)
    requires !IsCustom(name)
    ensures name in PromoteAll(table, props) <==> name in table
    ensures name in table ==> PromoteAll(table, props)[name] == table[name]
  {
    OthersUnchanged(table, props, name);
  }

  /** Two harvests in a row, as over two build cycles, equal one harvest of both lists: later values overwrite. */
  lemma {:induction false} PromoteAllConcat(table: map<string, string>, first: seq<Property>, second: seq<Property>)
    ensures PromoteAll(PromoteAll(table, first), second) == PromoteAll(table, first + second)
    decreases |second|
  {
    if second == [] {
      assert first + second == first;
    } else {
      var init := second[..|second| - 1];
      PromoteAllConcat(table, first, init);
      assert (first + second)[..|first + second| - 1] == first + init;
    }
  }

  /** Given an appended `CustomFoo=1` and `BarBaz=2`, only `CustomFoo` is promoted. */
  lemma PromotesOnlyCustomExample(table: map<string, string>)
    ensures PromoteAll(table, [Property("CustomFoo", "1"), Property("BarBaz", "2")]) == table["CustomFoo" := "1"]
    ensures "BarBaz" in PromoteAll(table, [Property("CustomFoo", "1"), Property("BarBaz", "2")]) <==> "BarBaz" in table
  {
    var props := [Property("CustomFoo", "1"), Property("BarBaz", "2")];
    assert props[..1] == [Property("CustomFoo", "1")];
    assert props[..1][..0] == [];
    assert IsCustom("CustomFoo");
    assert !IsCustom("BarBaz") by { assert "BarBaz"[..6][0] != CustomPrefix[0]; }
  }
}
