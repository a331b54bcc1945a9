/** The article property list of storage/objects.go. `read` and `unread`
    are kept mutually exclusive by `SetProperty`, which rebuilds the list
    from a map, so the list's order after a change is unspecified. */
module StorageObjects {

  /** `read` and `unread` are each other's opposite; other properties
      have none. */
  function Opposite(p: string): (r: set<string>)
    ensures p == "read" ==> r == {"unread"}
    ensures p == "unread" ==> r == {"read"}
    ensures p != "read" && p != "unread" ==> r == {}
  {
    if p == "read" then {"unread"} else if p == "unread" then {"read"} else {}
  }

  /** The property set after `SetProperty(p, value)` on `props`. */
  function Updated(props: set<string>, p: string, value: bool): (r: set<string>)
    ensures value ==> p in r
    ensures !value ==> p !in r
    ensures value && p !in props && p == "read" ==> "unread" !in r
    ensures value && p !in props && p == "unread" ==> "read" !in r
    ensures !value && p == "read" && p in props ==> "unread" in r
    ensures !value && p == "unread" && p in props ==> "read" in r
    ensures value == (p in props) ==> r == props
    ensures forall q :: q != p && q != "read" && q != "unread" ==> (q in r <==> q in props)
    ensures !("read" in props && "unread" in props) ==> !("read" in r && "unread" in r)
  {
    if value && p !in props then (props + {p}) - Opposite(p)
    else if !value && p in props then (props - {p}) + Opposite(p)
    else props
  }

  /** Toggling flips membership. */
  lemma ToggleFlips(props: set<string>, p: string)
    ensures p in Updated(props, p, p !in props) <==> p !in props
  {
  }

  /** Setting and then clearing a property that was absent, with no
      `read`/`unread` partner involved, restores the set. */
  lemma SetThenClear(props: set<string>, p: string)
    requires p !in props && p != "read" && p != "unread"
    ensures Updated(Updated(props, p, true), p, false) == props
  {
  }

  /** The search loop of `HasProperty`. */
  function Contains(props: seq<string>, p: string): (r: bool)
    ensures r <==> exists k :: 0 <= k < |props| && props[k] == p
  {
    if props == [] then false
    else if props[0] == p then true
    else
      assert forall k :: 1 <= k < |props| ==> props[k] == props[1..][k - 1];
      Contains(props[1..], p)
  }

  predicate NoDuplicates(s: seq<string>) {
    forall j, k :: 0 <= j < k < |s| ==> s[j] != s[k]
  }

  function SetOf(s: seq<string>): set<string> {
    set k | 0 <= k < |s| :: s[k]
  }

  lemma SetOfAppend(s: seq<string>, x: string)
    ensures SetOf(s + [x]) == SetOf(s) + {x}
  {
    assert forall k :: 0 <= k < |s| ==> (s + [x])[k] == s[k];
    assert (s + [x])[|s|] == x;
  }

  /** The first loop of `SetProperty`: every listed property maps to true. */
  method PropertyMap(properties: seq<string>) returns (propMap: map<string, bool>)
    ensures propMap.Keys == SetOf(properties)
    ensures forall key :: key in propMap ==> propMap[key]
  {
    propMap := map[];
    var i := 0;
    while i < |properties|
      invariant 0 <= i <= |properties|
      invariant propMap.Keys == SetOf(properties[..i])
      invariant forall key :: key in propMap ==> propMap[key]
    {
      assert properties[..i + 1] == properties[..i] + [properties[i]];
      SetOfAppend(properties[..i], properties[i]);
      propMap := propMap[properties[i] := true];
      i := i + 1;
    }
    assert properties[..i] == properties;
  }

  /** The branches of `SetProperty` on the map; a missing key reads as
      false. */
  method ChangeProperty(propMap: map<string, bool>, propName: string, value: bool)
    returns (r: map<string, bool>)
    requires forall key :: key in propMap ==> propMap[key]
    ensures r.Keys == Updated(propMap.Keys, propName, value)
    ensures forall key :: key in r ==> r[key]
  {
    r := propMap;
    if value && !(propName in r && r[propName]) {
      r := r[propName := true];
      if propName == "read" {
        r := r - {"unread"};
      } else if propName == "unread" {
        r := r - {"read"};
      }
      assert r.Keys == (propMap.Keys + {propName}) - Opposite(propName);
    } else if !value && (propName in r && r[propName]) {
      r := r - {propName};
      if propName == "read" {
        r := r["unread" := true];
      } else if propName == "unread" {
        r := r["read" := true];
      }
      assert r.Keys == (propMap.Keys - {propName}) + Opposite(propName);
    }
  }

  lemma ExtendDistinct(s: seq<string>, key: string)
    requires NoDuplicates(s) && key !in SetOf(s)
    ensures NoDuplicates(s + [key]) && SetOf(s + [key]) == SetOf(s) + {key}
  {
    SetOfAppend(s, key);
  }

  /** The refill loop: `make([]string, len(propMap))`, then one key per
      index in the map's (unspecified) iteration order. */
  method MapKeys(propMap: map<string, bool>) returns (properties: seq<string>)
    ensures SetOf(properties) == propMap.Keys
    ensures NoDuplicates(properties)
  {
    properties := seq(|propMap|, _ => "");
    var remaining := propMap.Keys;
    var i := 0;
    while remaining != {}
      invariant 0 <= i <= |properties| == |propMap.Keys|
      invariant i + |remaining| == |propMap.Keys|
      invariant remaining <= propMap.Keys
      invariant SetOf(properties[..i]) == propMap.Keys - remaining
      invariant NoDuplicates(properties[..i])
      decreases |remaining|
    {
      var key :| key in remaining;
      ghost var filled := properties[..i];
      ExtendDistinct(filled, key);
      properties := properties[i := key];
      assert properties[..i + 1] == filled + [key];
      remaining := remaining - {key};
      i := i + 1;
    }
    assert properties[..i] == properties;
  }

  class Article {
    var Properties: seq<string>

    constructor (properties: seq<string>)
      ensures Properties == properties
    {
      Properties := properties;
    }

    function HasProperty(propName: string): (r: bool)
      reads this
      ensures r <==> propName in Properties
    {
      Contains(Properties, propName)
    }

    function IsUnread(): (r: bool)
      reads this
      ensures r <==> "unread" in Properties
    {
      HasProperty("unread")
    }

    function IsLiked(): (r: bool)
      reads this
      ensures r <==> "like" in Properties
    {
      HasProperty("like")
    }

    /** Builds the map of present properties, applies the change, and
        refills `Properties` from the map's keys in some order. */
    method SetProperty(propName: string, value: bool)
      modifies this
      ensures SetOf(Properties) == Updated(SetOf(old(Properties)), propName, value)
      ensures NoDuplicates(Properties)
    {
      var propMap := PropertyMap(Properties);
      propMap := ChangeProperty(propMap, propName, value);
      Properties := MapKeys(propMap);
    }

    method ToggleProperty(propName: string)
      modifies this
      ensures SetOf(Properties) == Updated(SetOf(old(Properties)), propName, !(propName in old(Properties)))
      ensures propName in Properties <==> propName !in old(Properties)
    {
      ghost var before := SetOf(Properties);
      assert propName in Properties <==> propName in before;
      SetProperty(propName, !HasProperty(propName));
      assert propName in SetOf(Properties) <==> propName in Properties;
    }
  }
}
