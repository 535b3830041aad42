/** Discovery of input names in an OpenAPI document whose `$ref` graph may be cyclic. */
module OpenApiPolicy {
  import opened ArtifactDomain
  import opened JsonPointer
  import opened InputNames

  /** Python's truth value. */
  predicate Truthy(j: Json) {
    match j
    case Null => false
    case Bool(b) => b
    case Num(n) => n != 0
    case Str(s) => s != ""
    case Arr(items) => items != []
    case Obj(fields) => fields != []
  }

  /** `dict.get` with Null for a missing key; only asked of dictionaries. */
  function GetOr(j: Json, key: string, default: Json): Json
    requires j.Obj?
  {
    var v := Get(j.fields, key);
    if v.Some? then v.value else default
  }

  // ----- Lists and references as the document has them

  /** The values that count as false. */
  predicate IsFalsy(j: Json) { j == Null || j == Bool(false) || j == Num(0) || j == Str("") || j == Arr([]) || j == Obj([]) }

  /** The schema has a `$ref`. */
  ghost predicate Refers(schema: Json) { exists r :: Has(schema, "$ref", r) && !IsFalsy(r) }

  /** ... and it is a string that leads to b. */
  ghost predicate RefersTo(document: Json, schema: Json, b: Json) {
    Refers(schema) && exists r :: Has(schema, "$ref", Str(r)) && Resolve(document, r) == Some(b)
  }

  /** What the key holds can be looped over as a list. */
  ghost predicate ListOk(j: Json, key: string) { forall v :: Has(j, key, v) ==> v.Arr? || v == Obj([]) || v == Str("") }

  ghost predicate Lists(j: Json, key: string, element: Json) {
    exists l :: Has(j, key, l) && l.Arr? && element in l.items
  }

  predicate IsReference(schema: Json) { schema.Obj? && Truthy(GetOr(schema, "$ref", Null)) }

  // ----- The schemas inside a schema, in the order they are visited

  datatype Member = Member(name: Option<string>, schema: Json)

  function Properties(fields: seq<(string, Json)>): seq<Member> {
    seq(|fields|, i requires 0 <= i < |fields| => Member(Some(fields[i].0), fields[i].1))
  }

  function Unnamed(items: seq<Json>): seq<Member> {
    seq(|items|, i requires 0 <= i < |items| => Member(None, items[i]))
  }

  /** What a for loop over a value visits; the keys or characters of anything but a list are no schemas,
      so that the first of them raises. */
  function Elements(value: Json): Option<seq<Json>> {
    match value
    case Arr(items) => Some(items)
    case Obj(fields) => if fields == [] then Some([]) else None
    case Str(s) => if s == "" then Some([]) else None
    case _ => None
  }

  /** The loop over `schema.get(keyword, [])`. */
  function Alternatives(schema: Json, keyword: string): Option<seq<Member>>
    requires schema.Obj?
  {
    var elements := Elements(GetOr(schema, keyword, Arr([])));
    if elements.Some? then Some(Unnamed(elements.value)) else None
  }

  function Members(schema: Json): Option<seq<Member>>
    requires schema.Obj?
  {
    var properties, items := GetOr(schema, "properties", Obj([])), GetOr(schema, "items", Null);
    var allOf, anyOf, oneOf := Alternatives(schema, "allOf"), Alternatives(schema, "anyOf"), Alternatives(schema, "oneOf");
    if !properties.Obj? || allOf.None? || anyOf.None? || oneOf.None? then None
    else Some(Properties(properties.fields) + (if items.Obj? then [Member(None, items)] else []) + allOf.value + anyOf.value + oneOf.value)
  }

  lemma {:induction false} GetIsInside(fields: seq<(string, Json)>, key: string)
    ensures Get(fields, key).Some? ==> exists i | 0 <= i < |fields| :: fields[i] == (key, Get(fields, key).value)
  {
    if fields != [] && fields[0].0 != key {
      GetIsInside(fields[1..], key);
      if Get(fields[1..], key).Some? {
        var i :| 0 <= i < |fields[1..]| && fields[1..][i] == (key, Get(fields, key).value);
        assert fields[i + 1] == (key, Get(fields, key).value);
      }
    } else if fields != [] {
      assert fields[0] == (key, fields[0].1);
    }
  }

  /** A value found under a key is a proper part. */
  lemma GetIsSmaller(j: Json, key: string)
    requires j.Obj? && Get(j.fields, key).Some?
    ensures Get(j.fields, key).value < j
  {
    GetIsInside(j.fields, key);
  }

  lemma AlternativesSmaller(schema: Json, keyword: string)
    requires schema.Obj? && Alternatives(schema, keyword).Some?
    ensures forall m | m in Alternatives(schema, keyword).value :: m.schema < schema
  {
    if Get(schema.fields, keyword).Some? {
      GetIsSmaller(schema, keyword);
    }
  }

  lemma MembersSmaller(schema: Json)
    requires schema.Obj? && Members(schema).Some?
    ensures forall m | m in Members(schema).value :: m.schema < schema
  {
    if Get(schema.fields, "properties").Some? {
      GetIsSmaller(schema, "properties");
    }
    if Get(schema.fields, "items").Some? {
      GetIsSmaller(schema, "items");
    }
    AlternativesSmaller(schema, "allOf");
    AlternativesSmaller(schema, "anyOf");
    AlternativesSmaller(schema, "oneOf");
    hide Alternatives, Get;
  }

  // ----- Termination: references not yet followed, then the size of the schema

  /** Every string value anywhere in a document. */
  function Strings(j: Json): set<string> {
    match j
    case Str(s) => {s}
    case Arr(items) => set i, s | 0 <= i < |items| && s in Strings(items[i]) :: s
    case Obj(fields) => set i, s | 0 <= i < |fields| && s in Strings(fields[i].1) :: s
    case _ => {}
  }

  lemma ItemStrings(items: seq<Json>, i: nat)
    requires i < |items|
    ensures Strings(items[i]) <= Strings(Arr(items))
  {
  }

  lemma FieldStrings(fields: seq<(string, Json)>, i: nat)
    requires i < |fields|
    ensures Strings(fields[i].1) <= Strings(Obj(fields))
  {
  }

  lemma GetStrings(j: Json, key: string)
    requires j.Obj? && Get(j.fields, key).Some?
    ensures Strings(Get(j.fields, key).value) <= Strings(j)
  {
    GetIsInside(j.fields, key);
  }

  lemma AlternativesStrings(schema: Json, keyword: string)
    requires schema.Obj? && Alternatives(schema, keyword).Some?
    ensures forall m | m in Alternatives(schema, keyword).value :: Strings(m.schema) <= Strings(schema)
  {
    if Get(schema.fields, keyword).Some? {
      GetStrings(schema, keyword);
      var value := Get(schema.fields, keyword).value;
      if value.Arr? {
        forall i | 0 <= i < |value.items| { ItemStrings(value.items, i); }
      }
    }
  }

  lemma MembersStrings(schema: Json)
    requires schema.Obj? && Members(schema).Some?
    ensures forall m | m in Members(schema).value :: Strings(m.schema) <= Strings(schema)
  {
    if Get(schema.fields, "properties").Some? {
      GetStrings(schema, "properties");
      var value := Get(schema.fields, "properties").value;
      if value.Obj? {
        forall i | 0 <= i < |value.fields| { FieldStrings(value.fields, i); }
      }
    }
    if Get(schema.fields, "items").Some? {
      GetStrings(schema, "items");
    }
    AlternativesStrings(schema, "allOf");
    AlternativesStrings(schema, "anyOf");
    AlternativesStrings(schema, "oneOf");
    hide Alternatives, Get;
  }

  lemma {:induction false} FollowStrings(value: Json, names: seq<string>)
    requires Follow(value, names).Some?
    ensures Strings(Follow(value, names).value) <= Strings(value)
    decreases |names|
  {
    if names != [] {
      GetStrings(value, names[0]);
      FollowStrings(Get(value.fields, names[0]).value, names[1..]);
    }
  }

  lemma ResolveStrings(document: Json, reference: string)
    requires Resolve(document, reference).Some?
    ensures Strings(Resolve(document, reference).value) <= Strings(document)
  {
    FollowStrings(document, DecodeAll(Split(reference[2..])));
  }

  function Unseen(document: Json, schema: Json, seen: set<string>): set<string> {
    Strings(document) + Strings(schema) - seen
  }

  lemma ReferenceDecreases(document: Json, schema: Json, seen: set<string>)
    requires IsReference(schema) && GetOr(schema, "$ref", Null).Str? && GetOr(schema, "$ref", Null).s !in seen
    requires Resolve(document, GetOr(schema, "$ref", Null).s).Some?
    ensures var r := GetOr(schema, "$ref", Null).s;
            Unseen(document, Resolve(document, r).value, seen + {r}) < Unseen(document, schema, seen)
  {
    var r := GetOr(schema, "$ref", Null).s;
    GetStrings(schema, "$ref");
    ResolveStrings(document, r);
    assert r in Strings(schema);
    hide Strings, Resolve;
  }

  // ----- The walk

  /** `_schema_input_names`: the names in the order they are yielded, or None if it raises. */
  function SchemaInputNames(document: Json, schema: Json, seen: set<string>): Option<seq<string>>
    decreases Unseen(document, schema, seen), schema
  {
    if !schema.Obj? then None
    else if IsReference(schema) then
      var r := GetOr(schema, "$ref", Null);
      if !r.Str? then None
      else if r.s in seen then Some([])
      else if Resolve(document, r.s).None? then None
      else
        ReferenceDecreases(document, schema, seen);
        SchemaInputNames(document, Resolve(document, r.s).value, seen + {r.s})
    else
      var members := Members(schema);
      if members.None? then None
      else
        MembersSmaller(schema);
        MembersStrings(schema);
        MemberInputNames(document, schema, members.value, seen)
  }

  function MemberInputNames(document: Json, schema: Json, members: seq<Member>, seen: set<string>): Option<seq<string>>
    requires forall m | m in members :: m.schema < schema && Strings(m.schema) <= Strings(schema)
    decreases Unseen(document, schema, seen), schema, |members|
  {
    if members == [] then Some([])
    else
      var first, rest := SchemaInputNames(document, members[0].schema, seen), MemberInputNames(document, schema, members[1..], seen);
      if first.None? || rest.None? then None
      else Some((if members[0].name.Some? then [members[0].name.value] else []) + first.value + rest.value)
  }

  // ----- Reference semantics: what can be reached by following members and references

  /** The reference string of a schema that has one. */
  function Reference(schema: Json): Option<string> {
    if IsReference(schema) && GetOr(schema, "$ref", Null).Str? then Some(GetOr(schema, "$ref", Null).s) else None
  }

  /** A schema on which the walk does not raise by itself. */
  ghost predicate WellFormed(document: Json, schema: Json) {
    schema.Obj? &&
    if Refers(schema) then exists b :: RefersTo(document, schema, b)
    else (forall v :: Has(schema, "properties", v) ==> v.Obj?) && ListOk(schema, "allOf") && ListOk(schema, "anyOf") && ListOk(schema, "oneOf")
  }

  /** The value under some key of `properties`. */
  ghost predicate IsProperty(schema: Json, name: string, b: Json) {
    exists ps :: Has(schema, "properties", ps) && ps.Obj? && (name, b) in ps.fields
  }

  /** A part of the schema: a property, the dictionary under `items`, or an element of one of three lists. */
  ghost predicate Within(schema: Json, b: Json) {
    (exists name :: IsProperty(schema, name, b)) || (Has(schema, "items", b) && b.Obj?)
    || Lists(schema, "allOf", b) || Lists(schema, "anyOf", b) || Lists(schema, "oneOf", b)
  }

  /** One step from a schema to another. */
  ghost predicate Leads(document: Json, a: Json, b: Json) {
    WellFormed(document, a) && if Refers(a) then RefersTo(document, a, b) else Within(a, b)
  }

  /** The name occurs directly in a schema, as the key of a property. */
  ghost predicate Names(document: Json, schema: Json, name: string) {
    WellFormed(document, schema) && !Refers(schema) && exists b :: IsProperty(schema, name, b)
  }

  lemma ReferenceMeans(document: Json, schema: Json)
    ensures IsReference(schema) <==> Refers(schema)
    ensures forall b :: RefersTo(document, schema, b) <==> Reference(schema).Some? && Resolve(document, Reference(schema).value) == Some(b)
  {
    hide Resolve, Has;
    if schema.Obj? {
      GetIsHas(schema, "$ref");
    } else {
      NothingInside(schema);
    }
  }

  lemma NothingInside(j: Json)
    requires !j.Obj?
    ensures forall key, v :: !Has(j, key, v)
  {
  }

  lemma ListMeans(schema: Json, keyword: string)
    requires schema.Obj?
    ensures Alternatives(schema, keyword).Some? <==> ListOk(schema, keyword)
    ensures Alternatives(schema, keyword).Some? ==>
              (forall b :: Lists(schema, keyword, b) <==> Member(None, b) in Alternatives(schema, keyword).value)
              && forall m | m in Alternatives(schema, keyword).value :: m.name == None
  {
    GetIsHas(schema, keyword);
    hide Has, Get;
    var v := GetOr(schema, keyword, Arr([]));
    assert Has(schema, keyword, v) || v == Arr([]);
    if v.Arr? {
      forall b ensures b in v.items <==> Member(None, b) in Unnamed(v.items) {
        if i :| 0 <= i < |v.items| && v.items[i] == b {
          assert Unnamed(v.items)[i] == Member(None, b);
        }
      }
    }
  }

  lemma PropertiesMean(schema: Json)
    requires schema.Obj?
    ensures var v := GetOr(schema, "properties", Obj([]));
            && (v.Obj? <==> forall w :: Has(schema, "properties", w) ==> w.Obj?)
            && (v.Obj? ==> forall name, b :: IsProperty(schema, name, b) <==> Member(Some(name), b) in Properties(v.fields))
  {
    GetIsHas(schema, "properties");
    hide Has, Get;
    var v := GetOr(schema, "properties", Obj([]));
    assert Has(schema, "properties", v) || v == Obj([]);
    if v.Obj? {
      forall name, b ensures (name, b) in v.fields <==> Member(Some(name), b) in Properties(v.fields) {
        if i :| 0 <= i < |v.fields| && v.fields[i] == (name, b) {
          assert Properties(v.fields)[i] == Member(Some(name), b);
        }
        if i :| 0 <= i < |v.fields| && Properties(v.fields)[i] == Member(Some(name), b) {
          assert v.fields[i] == (name, b);
        }
      }
    }
  }

  function ItemsOf(schema: Json): seq<Member>
    requires schema.Obj?
  {
    var items := GetOr(schema, "items", Null);
    if items.Obj? then [Member(None, items)] else []
  }

  lemma ItemsMean(schema: Json, b: Json)
    requires schema.Obj?
    ensures Has(schema, "items", b) && b.Obj? <==> Member(None, b) in ItemsOf(schema)
    ensures forall m | m in ItemsOf(schema) :: m.name == None
  {
    GetIsHas(schema, "items");
    hide Has, Get;
  }

  lemma MembersJoin(schema: Json)
    requires schema.Obj? && Members(schema).Some?
    ensures GetOr(schema, "properties", Obj([])).Obj?
    ensures Alternatives(schema, "allOf").Some? && Alternatives(schema, "anyOf").Some? && Alternatives(schema, "oneOf").Some?
    ensures forall m :: m in Members(schema).value <==>
              m in Properties(GetOr(schema, "properties", Obj([])).fields) || m in ItemsOf(schema)
              || m in Alternatives(schema, "allOf").value || m in Alternatives(schema, "anyOf").value || m in Alternatives(schema, "oneOf").value
  {
    hide Alternatives, Properties, GetOr;
  }

  /** The members that the walk visits are the parts of the schema, and their names those of its properties. */
  lemma MembersMean(schema: Json)
    requires schema.Obj?
    ensures Members(schema).Some? <==>
              (forall v :: Has(schema, "properties", v) ==> v.Obj?) && ListOk(schema, "allOf") && ListOk(schema, "anyOf") && ListOk(schema, "oneOf")
    ensures Members(schema).Some? ==> forall b :: Within(schema, b) <==> exists m | m in Members(schema).value :: m.schema == b
    ensures Members(schema).Some? ==>
              forall name :: (exists b :: IsProperty(schema, name, b)) <==> exists m | m in Members(schema).value :: m.name == Some(name)
  {
    PropertiesMean(schema);
    ListMeans(schema, "allOf");
    ListMeans(schema, "anyOf");
    ListMeans(schema, "oneOf");
    hide Has, ListOk, Lists, IsProperty, GetOr, Alternatives, Properties;
    if Members(schema).Some? {
      MembersJoin(schema);
      forall b ensures Within(schema, b) <==> exists m | m in Members(schema).value :: m.schema == b {
        PartsAreMembers(schema, b);
      }
      forall name ensures (exists b :: IsProperty(schema, name, b)) <==> exists m | m in Members(schema).value :: m.name == Some(name) {
        NamesAreMembers(schema, name);
      }
    }
  }

  lemma PartsAreMembers(schema: Json, b: Json)
    requires schema.Obj? && Members(schema).Some?
    ensures Within(schema, b) <==> exists m | m in Members(schema).value :: m.schema == b
  {
    MembersJoin(schema);
    PropertiesMean(schema);
    ItemsMean(schema, b);
    ListMeans(schema, "allOf");
    ListMeans(schema, "anyOf");
    ListMeans(schema, "oneOf");
    hide Has, ListOk, Lists, IsProperty, GetOr, Alternatives, Members, ItemsOf, Properties;
    if name :| IsProperty(schema, name, b) {
      assert Member(Some(name), b) in Members(schema).value;
    }
    assert Member(None, b).schema == b;
    if m :| m in Members(schema).value && m.schema == b {
      assert m == Member(m.name, b);
      if m.name.Some? {
        assert IsProperty(schema, m.name.value, b);
      } else {
        UnnamedOnly(schema, m);
      }
    }
  }

  lemma UnnamedOnly(schema: Json, m: Member)
    requires schema.Obj? && GetOr(schema, "properties", Obj([])).Obj? && m.name == None
    ensures m !in Properties(GetOr(schema, "properties", Obj([])).fields)
  {
  }

  lemma NamesAreMembers(schema: Json, name: string)
    requires schema.Obj? && Members(schema).Some?
    ensures (exists b :: IsProperty(schema, name, b)) <==> exists m | m in Members(schema).value :: m.name == Some(name)
  {
    MembersJoin(schema);
    PropertiesMean(schema);
    ItemsMean(schema, Null);
    ListMeans(schema, "allOf");
    ListMeans(schema, "anyOf");
    ListMeans(schema, "oneOf");
    hide Has, ListOk, Lists, IsProperty, GetOr, Alternatives, Members, ItemsOf, Properties;
    if b :| IsProperty(schema, name, b) {
      assert Member(Some(name), b) in Members(schema).value;
    }
    if m :| m in Members(schema).value && m.name == Some(name) {
      assert m == Member(Some(name), m.schema);
      assert IsProperty(schema, name, m.schema);
    }
  }

  /** The document's relation, told by what the walk computes. */
  lemma StepMeans(document: Json, a: Json)
    ensures WellFormed(document, a) <==>
              a.Obj? && if IsReference(a) then Reference(a).Some? && Resolve(document, Reference(a).value).Some? else Members(a).Some?
    ensures forall b :: Leads(document, a, b) <==>
              WellFormed(document, a)
              && if IsReference(a) then Resolve(document, Reference(a).value) == Some(b) else exists m | m in Members(a).value :: m.schema == b
    ensures forall name :: Names(document, a, name) <==>
              WellFormed(document, a) && !IsReference(a) && exists m | m in Members(a).value :: m.name == Some(name)
  {
    ReferenceMeans(document, a);
    if a.Obj? {
      MembersMean(a);
    }
    hide Resolve, Has, Refers, RefersTo, ListOk, Within, IsProperty, Members, IsReference, Reference;
    var target := if Reference(a).Some? then Resolve(document, Reference(a).value) else None;
    if target.Some? {
      assert RefersTo(document, a, target.value);
    }
  }

  ghost predicate IsPath(document: Json, p: seq<Json>) {
    |p| > 0 && forall i | 0 <= i < |p| - 1 :: Leads(document, p[i], p[i + 1])
  }

  ghost predicate Reachable(document: Json, a: Json, b: Json) {
    exists p: seq<Json> :: IsPath(document, p) && p[0] == a && p[|p| - 1] == b
  }

  // ----- Soundness: everything yielded is reachable, and a failure has a reachable cause

  lemma ReachableSelf(document: Json, a: Json)
    ensures Reachable(document, a, a)
  {
    assert IsPath(document, [a]);
  }

  lemma ReachableStep(document: Json, a: Json, b: Json, c: Json)
    requires Leads(document, a, b) && Reachable(document, b, c)
    ensures Reachable(document, a, c)
  {
    hide Leads;
    var p: seq<Json> :| IsPath(document, p) && p[0] == b && p[|p| - 1] == c;
    var q := [a] + p;
    forall i | 0 <= i < |q| - 1 ensures Leads(document, q[i], q[i + 1]) {
      if i > 0 {
        assert q[i] == p[i - 1] && q[i + 1] == p[i];
      }
    }
    assert IsPath(document, q);
  }

  ghost predicate Justified(document: Json, schema: Json, result: Option<seq<string>>) {
    match result
    case Some(names) => forall n | n in names :: exists b :: Reachable(document, schema, b) && Names(document, b, n)
    case None => exists b :: Reachable(document, schema, b) && !WellFormed(document, b)
  }

  lemma JustifiedStep(document: Json, a: Json, b: Json, result: Option<seq<string>>)
    requires Leads(document, a, b) && Justified(document, b, result)
    ensures Justified(document, a, result)
  {
    hide Leads, Reachable, Names, WellFormed;
    forall c | Reachable(document, b, c) ensures Reachable(document, a, c) {
      ReachableStep(document, a, b, c);
    }
  }

  lemma JustifiedJoin(document: Json, schema: Json, name: Option<string>, first: seq<string>, rest: seq<string>)
    requires Justified(document, schema, Some(first)) && Justified(document, schema, Some(rest))
    requires name.Some? ==> Names(document, schema, name.value)
    ensures Justified(document, schema, Some((if name.Some? then [name.value] else []) + first + rest))
  {
    hide Reachable, Names, WellFormed;
    ReachableSelf(document, schema);
  }

  lemma {:induction false} SchemaJustified(document: Json, schema: Json, seen: set<string>)
    ensures Justified(document, schema, SchemaInputNames(document, schema, seen))
    decreases Unseen(document, schema, seen), schema
  {
    ReachableSelf(document, schema);
    StepMeans(document, schema);
    hide Reachable, Resolve, Unseen, WellFormed, Leads, Names, Members;
    if WellFormed(document, schema) {
      if IsReference(schema) {
        var r := Reference(schema).value;
        if r !in seen {
          var target := Resolve(document, r).value;
          ReferenceDecreases(document, schema, seen);
          SchemaJustified(document, target, seen + {r});
          JustifiedStep(document, schema, target, SchemaInputNames(document, target, seen + {r}));
        }
      } else {
        MembersSmaller(schema);
        MembersStrings(schema);
        MembersJustified(document, schema, Members(schema).value, seen);
      }
    }
  }

  lemma {:induction false} MembersJustified(document: Json, schema: Json, members: seq<Member>, seen: set<string>)
    requires forall m | m in members :: m.schema < schema && Strings(m.schema) <= Strings(schema)
    requires WellFormed(document, schema) && !IsReference(schema) && schema.Obj? && Members(schema).Some?
    requires forall m | m in members :: m in Members(schema).value
    ensures Justified(document, schema, MemberInputNames(document, schema, members, seen))
    decreases Unseen(document, schema, seen), schema, |members|
  {
    hide Reachable, Justified, SchemaInputNames, Members, WellFormed, Strings, IsReference;
    if members == [] {
      JustifiedNothing(document, schema);
    } else {
      var m := members[0];
      assert m in members;
      MemberLeads(document, schema, m);
      SchemaJustified(document, m.schema, seen);
      JustifiedStep(document, schema, m.schema, SchemaInputNames(document, m.schema, seen));
      MembersJustified(document, schema, members[1..], seen);
      var first, rest := SchemaInputNames(document, m.schema, seen), MemberInputNames(document, schema, members[1..], seen);
      if first.Some? && rest.Some? {
        JustifiedJoin(document, schema, m.name, first.value, rest.value);
      }
    }
  }

  lemma JustifiedNothing(document: Json, schema: Json)
    ensures Justified(document, schema, Some([]))
  {
  }

  lemma MemberLeads(document: Json, schema: Json, m: Member)
    requires WellFormed(document, schema) && !IsReference(schema) && schema.Obj? && Members(schema).Some? && m in Members(schema).value
    ensures Leads(document, schema, m.schema) && (m.name.Some? ==> Names(document, schema, m.name.value))
  {
    StepMeans(document, schema);
    hide WellFormed, Leads, Names, Members, IsReference;
  }

  // ----- Completeness: cutting at a reference repeated on the path loses nothing

  /** No reference is followed twice on the path, and none that was seen before. */
  predicate NoRepeat(p: seq<Json>, seen: set<string>) {
    && (forall i | 0 <= i < |p| - 1 && Reference(p[i]).Some? :: Reference(p[i]).value !in seen)
    && (forall i, j | 0 <= i < j < |p| - 1 && Reference(p[i]).Some? && Reference(p[j]).Some? :: Reference(p[i]) != Reference(p[j]))
  }

  /** The last schema of the path repeats a reference that is followed earlier on, or was seen before. */
  predicate EndsInRepeat(p: seq<Json>, seen: set<string>) {
    |p| > 0 && Reference(p[|p| - 1]).Some?
    && (Reference(p[|p| - 1]).value in seen || exists i | 0 <= i < |p| - 1 :: Reference(p[i]) == Reference(p[|p| - 1]))
  }

  lemma {:induction false} MemberIncluded(document: Json, schema: Json, members: seq<Member>, seen: set<string>, m: Member)
    requires forall m | m in members :: m.schema < schema && Strings(m.schema) <= Strings(schema)
    requires m in members && MemberInputNames(document, schema, members, seen).Some?
    ensures SchemaInputNames(document, m.schema, seen).Some?
    ensures forall n | n in SchemaInputNames(document, m.schema, seen).value :: n in MemberInputNames(document, schema, members, seen).value
    ensures m.name.Some? ==> m.name.value in MemberInputNames(document, schema, members, seen).value
    decreases |members|
  {
    hide SchemaInputNames, Strings;
    if members[0] != m {
      MemberIncluded(document, schema, members[1..], seen, m);
    }
  }

  /** Along a path without repeats the walk meets every schema. */
  lemma {:induction false} PathCovered(document: Json, p: seq<Json>, seen: set<string>, name: string)
    requires IsPath(document, p) && NoRepeat(p, seen) && SchemaInputNames(document, p[0], seen).Some?
    ensures WellFormed(document, p[|p| - 1]) || EndsInRepeat(p, seen)
    ensures Names(document, p[|p| - 1], name) ==> name in SchemaInputNames(document, p[0], seen).value
    decreases |p|
  {
    hide Resolve, Strings, Unseen;
    var schema := p[0];
    StepMeans(document, schema);
    hide WellFormed, Leads, Names;
    if |p| == 1 {
      if Names(document, schema, name) {
        MembersSmaller(schema);
        MembersStrings(schema);
        var m :| m in Members(schema).value && m.name == Some(name);
        hide Members;
        MemberIncluded(document, schema, Members(schema).value, seen, m);
      }
    } else {
      var rest := p[1..];
      assert Leads(document, p[0], p[1]);
      PathTail(document, p, seen);
      if IsReference(schema) {
        var r := Reference(schema).value;
        hide NoRepeat, IsPath, EndsInRepeat, Members;
        PathCovered(document, rest, seen + {r}, name);
        RepeatFromTail(p, seen, r);
      } else {
        MembersSmaller(schema);
        MembersStrings(schema);
        var m :| m in Members(schema).value && m.schema == p[1];
        hide NoRepeat, IsPath, EndsInRepeat, Members;
        MemberIncluded(document, schema, Members(schema).value, seen, m);
        PathCovered(document, rest, seen, name);
        RepeatFromTail(p, seen, "");
      }
    }
  }

  lemma PathTail(document: Json, p: seq<Json>, seen: set<string>)
    requires IsPath(document, p) && NoRepeat(p, seen) && |p| > 1
    ensures IsPath(document, p[1..]) && NoRepeat(p[1..], seen)
    ensures Reference(p[0]).Some? ==> NoRepeat(p[1..], seen + {Reference(p[0]).value})
  {
    hide Leads, Reference;
    forall i | 0 <= i < |p[1..]| - 1 ensures Leads(document, p[1..][i], p[1..][i + 1]) {
      assert Leads(document, p[i + 1], p[i + 2]);
    }
  }

  lemma RepeatFromTail(p: seq<Json>, seen: set<string>, r: string)
    requires |p| > 1
    ensures EndsInRepeat(p[1..], seen) ==> EndsInRepeat(p, seen)
    ensures Reference(p[0]) == Some(r) && EndsInRepeat(p[1..], seen + {r}) ==> EndsInRepeat(p, seen)
  {
    hide Reference;
    var q := p[1..];
    forall i | 0 <= i < |q| - 1 && Reference(q[i]) == Reference(q[|q| - 1]) ensures Reference(p[i + 1]) == Reference(p[|p| - 1]) {
    }
  }

  /** Any path can be cut between two occurrences of one reference, which lead to the same schema. */
  lemma {:induction false} WithoutRepeats(document: Json, p: seq<Json>) returns (q: seq<Json>)
    requires IsPath(document, p)
    ensures IsPath(document, q) && NoRepeat(q, {}) && q[0] == p[0] && q[|q| - 1] == p[|p| - 1]
    decreases |p|
  {
    hide Leads, Reference;
    if i, j :| 0 <= i < j < |p| - 1 && Reference(p[i]).Some? && Reference(p[i]) == Reference(p[j]) {
      var cut := p[..i + 1] + p[j + 1..];
      SameTarget(document, p[i], p[j], p[i + 1], p[j + 1]);
      forall k | 0 <= k < |cut| - 1 ensures Leads(document, cut[k], cut[k + 1]) {
        if k < i {
          assert Leads(document, p[k], p[k + 1]);
        } else if k > i {
          assert Leads(document, p[k + j - i], p[k + j - i + 1]);
        }
      }
      q := WithoutRepeats(document, cut);
    } else {
      q := p;
    }
  }

  lemma SameTarget(document: Json, a: Json, b: Json, a': Json, b': Json)
    requires Reference(a).Some? && Reference(a) == Reference(b) && Leads(document, a, a') && Leads(document, b, b')
    ensures a' == b'
  {
    StepMeans(document, a);
    StepMeans(document, b);
    hide Resolve, Leads, WellFormed, Names, Members;
  }

  /** Started with nothing seen, the walk meets every reachable schema and yields every reachable name. */
  lemma WalkIsComplete(document: Json, schema: Json, b: Json, name: string)
    requires SchemaInputNames(document, schema, {}).Some? && Reachable(document, schema, b)
    ensures WellFormed(document, b)
    ensures Names(document, b, name) ==> name in SchemaInputNames(document, schema, {}).value
  {
    hide Resolve, SchemaInputNames, Names, Leads, WellFormed;
    var p: seq<Json> :| IsPath(document, p) && p[0] == schema && p[|p| - 1] == b;
    var q := WithoutRepeats(document, p);
    PathCovered(document, q, {}, name);
    if EndsInRepeat(q, {}) {
      var i :| 0 <= i < |q| - 1 && Reference(q[i]) == Reference(b);
      assert Leads(document, q[i], q[i + 1]);
      RepeatIsWellFormed(document, q[i], q[i + 1], b);
    }
  }

  lemma RepeatIsWellFormed(document: Json, a: Json, next: Json, b: Json)
    requires Leads(document, a, next) && Reference(b).Some? && Reference(a) == Reference(b)
    ensures WellFormed(document, b)
  {
    StepMeans(document, a);
    StepMeans(document, b);
    hide Resolve, Leads, WellFormed, Names, Members;
  }

  /** The walk raises if and only if some reachable schema is malformed; otherwise it yields exactly the
      names reachable through properties, items, allOf, anyOf, oneOf and `$ref`. */
  lemma WalkIsExact(document: Json, schema: Json)
    ensures var result := SchemaInputNames(document, schema, {});
            && (result.Some? <==> forall b :: Reachable(document, schema, b) ==> WellFormed(document, b))
            && (result.Some? ==> forall n :: n in result.value <==> exists b :: Reachable(document, schema, b) && Names(document, b, n))
  {
    hide SchemaInputNames, Reachable, WellFormed, Names;
    SchemaJustified(document, schema, {});
    if SchemaInputNames(document, schema, {}).Some? {
      forall b | Reachable(document, schema, b) ensures WellFormed(document, b) {
        WalkIsComplete(document, schema, b, "");
      }
      forall b, n | Reachable(document, schema, b) && Names(document, b, n) ensures n in SchemaInputNames(document, schema, {}).value {
        WalkIsComplete(document, schema, b, n);
      }
    }
  }

  // ----- The policy over all operations

  const HTTP_METHODS: set<string> := {"get", "post", "put", "patch", "delete", "options", "head"}
  const FORBIDDEN: set<string> := {"user_id", "actor_id", "subject", "owner_id"}

  datatype Field = Field(location: string, name: string)
  datatype Finding = Finding(verb: string, path: string, location: string, name: string)

  /** `_resolve_ref` on a parameter or request body. */
  function ResolveValue(document: Json, value: Json): Option<Json> {
    if !value.Obj? then None
    else if !IsReference(value) then Some(value)
    else if Reference(value).None? then None
    else Resolve(document, Reference(value).value)
  }

  function ParameterField(document: Json, parameter: Json): Option<Field> {
    var resolved := ResolveValue(document, parameter);
    if resolved.None? || !resolved.value.Obj? then None
    else
      var location, name := Get(resolved.value.fields, "in"), Get(resolved.value.fields, "name");
      if location.Some? && location.value.Str? && name.Some? && name.value.Str? then Some(Field(location.value.s, name.value.s)) else None
  }

  function ParameterFields(document: Json, parameters: seq<Json>): Option<seq<Field>> {
    if parameters == [] then Some([])
    else
      var first, rest := ParameterField(document, parameters[0]), ParameterFields(document, parameters[1..]);
      if first.None? || rest.None? then None else Some([first.value] + rest.value)
  }

  /** The schema of a media type object. */
  function MediaSchema(media: Json): Option<Json> {
    if media.Obj? then Some(GetOr(media, "schema", Obj([]))) else None
  }

  function BodyFields(document: Json, content: seq<(string, Json)>): Option<seq<Field>> {
    if content == [] then Some([])
    else
      var schema, rest := MediaSchema(content[0].1), BodyFields(document, content[1..]);
      var names := if schema.Some? then SchemaInputNames(document, schema.value, {}) else None;
      if names.None? || rest.None? then None
      else Some(seq(|names.value|, i requires 0 <= i < |names.value| => Field("body", names.value[i])) + rest.value)
  }

  /** The content of a request body. */
  function ContentOf(document: Json, body: Json): Option<seq<(string, Json)>> {
    var resolved := ResolveValue(document, body);
    if resolved.None? || !resolved.value.Obj? then None
    else
      var content := GetOr(resolved.value, "content", Obj([]));
      if content.Obj? then Some(content.fields) else None
  }

  /** ... of the operation, empty if it has no body. */
  function BodyContent(document: Json, operation: Json): Option<seq<(string, Json)>>
    requires operation.Obj?
  {
    var body := GetOr(operation, "requestBody", Null);
    if !Truthy(body) then Some([]) else ContentOf(document, body)
  }

  function Parameters(item: Json, operation: Json): Option<seq<Json>>
    requires item.Obj? && operation.Obj?
  {
    var shared, own := Elements(GetOr(item, "parameters", Arr([]))), Elements(GetOr(operation, "parameters", Arr([])));
    if shared.None? || own.None? then None else Some(shared.value + own.value)
  }

  /** `_operation_input_fields` */
  function OperationFields(document: Json, item: Json, operation: Json): Option<seq<Field>>
    requires item.Obj?
  {
    if !operation.Obj? then None
    else
      var parameters, content := Parameters(item, operation), BodyContent(document, operation);
      if parameters.None? || content.None? then None
      else
        var fields, body := ParameterFields(document, parameters.value), BodyFields(document, content.value);
        if fields.None? || body.None? then None else Some(fields.value + body.value)
  }

  // ----- What an operation declares, as the document has it

  /** The value itself, or what its reference leads to. */
  ghost predicate Stands(document: Json, value: Json, b: Json) {
    value.Obj? && if Refers(value) then RefersTo(document, value, b) else b == value
  }

  ghost predicate ParameterOf(document: Json, p: Json, field: Field) {
    exists q :: Stands(document, p, q) && Has(q, "in", Str(field.location)) && Has(q, "name", Str(field.name))
  }

  /** A parameter of the operation or of its path. */
  ghost predicate HasParameter(item: Json, operation: Json, p: Json) {
    Lists(item, "parameters", p) || Lists(operation, "parameters", p)
  }

  ghost predicate HasBody(operation: Json, body: Json) { Has(operation, "requestBody", body) && !IsFalsy(body) }

  ghost predicate BodyHasContent(document: Json, body: Json, content: Json) {
    exists q :: Stands(document, body, q) && Has(q, "content", content) && content.Obj?
  }

  ghost predicate HasMedia(document: Json, operation: Json, entry: (string, Json)) {
    exists body, content :: HasBody(operation, body) && BodyHasContent(document, body, content) && entry in content.fields
  }

  /** The name can be reached from the schema of the media type. */
  ghost predicate MediaNames(document: Json, media: Json, name: string) {
    exists schema, b :: Has(media, "schema", schema) && Reachable(document, schema, b) && Names(document, b, name)
  }

  /** What the operation declares: a parameter of its own or of its path, or a name that can be reached
      from the schema of some media type of its body. */
  ghost predicate Declares(document: Json, item: Json, operation: Json, field: Field) {
    operation.Obj? &&
    ((exists p :: HasParameter(item, operation, p) && ParameterOf(document, p, field))
     || (field.location == "body" && exists entry :: HasMedia(document, operation, entry) && MediaNames(document, entry.1, field.name)))
  }

  ghost predicate MediaOk(document: Json, media: Json) {
    media.Obj? && forall schema, b :: Has(media, "schema", schema) && Reachable(document, schema, b) ==> WellFormed(document, b)
  }

  /** The body, if there is one, resolves to a dictionary whose content is one. */
  ghost predicate BodyStands(document: Json, body: Json) {
    exists q :: Stands(document, body, q) && q.Obj? && forall content :: Has(q, "content", content) ==> content.Obj?
  }

  ghost predicate BodyOk(document: Json, body: Json) {
    && BodyStands(document, body)
    && (forall content, entry :: BodyHasContent(document, body, content) && entry in content.fields ==> MediaOk(document, entry.1))
  }

  /** Nothing raises while the operation is looked at. */
  ghost predicate OperationOk(document: Json, item: Json, operation: Json) {
    && operation.Obj? && ListOk(item, "parameters") && ListOk(operation, "parameters")
    && (forall p :: HasParameter(item, operation, p) ==> exists field :: ParameterOf(document, p, field))
    && (forall body :: HasBody(operation, body) ==> BodyOk(document, body))
  }

  lemma StandsMeans(document: Json, value: Json)
    ensures forall b :: Stands(document, value, b) <==> ResolveValue(document, value) == Some(b)
  {
    ReferenceMeans(document, value);
    hide Resolve, Refers, RefersTo, IsReference, Reference;
  }

  lemma ParameterMeans(document: Json, p: Json)
    ensures forall field :: ParameterOf(document, p, field) <==> ParameterField(document, p) == Some(field)
  {
    StandsMeans(document, p);
    hide Stands, ResolveValue;
    var resolved := ResolveValue(document, p);
    if resolved.Some? {
      assert Stands(document, p, resolved.value);
      if resolved.value.Obj? {
        GetIsHas(resolved.value, "in");
        GetIsHas(resolved.value, "name");
      } else {
        NothingInside(resolved.value);
      }
    }
    hide Has;
  }

  lemma ListIsElements(j: Json, key: string)
    requires j.Obj?
    ensures var elements := Elements(GetOr(j, key, Arr([])));
            && (elements.Some? <==> ListOk(j, key))
            && (elements.Some? ==> forall p :: p in elements.value <==> Lists(j, key, p))
  {
    GetIsHas(j, key);
    hide Has, Get;
    var v := GetOr(j, key, Arr([]));
    assert Has(j, key, v) || v == Arr([]);
  }

  lemma ParametersMean(item: Json, operation: Json)
    requires item.Obj? && operation.Obj?
    ensures Parameters(item, operation).Some? <==> ListOk(item, "parameters") && ListOk(operation, "parameters")
    ensures Parameters(item, operation).Some? ==>
              forall p :: p in Parameters(item, operation).value <==> HasParameter(item, operation, p)
  {
    ListIsElements(item, "parameters");
    ListIsElements(operation, "parameters");
    hide ListOk, Lists, Elements;
  }

  lemma MediaMeans(document: Json, media: Json)
    ensures MediaOk(document, media) <==> MediaSchema(media).Some? && SchemaInputNames(document, MediaSchema(media).value, {}).Some?
    ensures MediaOk(document, media) ==>
              forall name :: MediaNames(document, media, name) <==> name in SchemaInputNames(document, MediaSchema(media).value, {}).value
  {
    if media.Obj? {
      GetIsHas(media, "schema");
      var schema := GetOr(media, "schema", Obj([]));
      WalkIsExact(document, schema);
      hide SchemaInputNames, Reachable, WellFormed, Names, Has;
      if Get(media.fields, "schema").None? {
        NothingReachable(document);
      }
      hide Get;
    }
  }

  /** The empty schema leads nowhere and names nothing. */
  lemma NothingReachable(document: Json)
    ensures SchemaInputNames(document, Obj([]), {}) == Some([])
  {
    assert !IsReference(Obj([]));
  }

  lemma ContentMeans(q: Json)
    requires q.Obj?
    ensures var content := GetOr(q, "content", Obj([]));
            && (content.Obj? <==> forall v :: Has(q, "content", v) ==> v.Obj?)
            && (content.Obj? ==> forall entry :: entry in content.fields <==> exists v :: Has(q, "content", v) && v.Obj? && entry in v.fields)
  {
    GetIsHas(q, "content");
    hide Has, Get;
  }

  lemma ContentOfMeans(document: Json, body: Json)
    ensures ContentOf(document, body).Some? <==> BodyStands(document, body)
    ensures ContentOf(document, body).Some? ==>
              forall entry :: entry in ContentOf(document, body).value <==>
                exists content :: BodyHasContent(document, body, content) && entry in content.fields
  {
    StandsMeans(document, body);
    hide Stands, ResolveValue;
    var resolved := ResolveValue(document, body);
    if resolved.Some? {
      var q := resolved.value;
      assert forall b :: Stands(document, body, b) <==> b == q;
      if q.Obj? {
        ContentMeans(q);
      } else {
        NothingInside(q);
      }
    }
    hide Has, GetOr;
  }

  lemma BodyIs(operation: Json)
    requires operation.Obj?
    ensures forall b :: HasBody(operation, b) <==> b == GetOr(operation, "requestBody", Null) && Truthy(b)
  {
    GetIsHas(operation, "requestBody");
    hide Has, Get;
  }

  lemma BodyMeans(document: Json, operation: Json)
    requires operation.Obj?
    ensures BodyContent(document, operation).Some? <==> forall body :: HasBody(operation, body) ==> BodyStands(document, body)
    ensures BodyContent(document, operation).Some? ==>
              forall entry :: entry in BodyContent(document, operation).value <==> HasMedia(document, operation, entry)
  {
    BodyIs(operation);
    ContentOfMeans(document, GetOr(operation, "requestBody", Null));
    hide HasBody, GetOr, ContentOf, BodyStands, Truthy;
    assert HasBody(operation, GetOr(operation, "requestBody", Null)) <==> Truthy(GetOr(operation, "requestBody", Null));
    HasMediaMeans(document, operation);
    hide BodyHasContent, HasMedia;
  }

  lemma HasMediaMeans(document: Json, operation: Json)
    requires operation.Obj?
    ensures var body := GetOr(operation, "requestBody", Null);
            forall entry :: HasMedia(document, operation, entry) <==>
              Truthy(body) && exists content :: BodyHasContent(document, body, content) && entry in content.fields
  {
    BodyIs(operation);
    hide HasBody, GetOr, Truthy, Stands, Has;
    var body := GetOr(operation, "requestBody", Null);
    assert HasBody(operation, body) <==> Truthy(body);
  }

  lemma {:induction false} ParameterFieldsExact(document: Json, parameters: seq<Json>)
    ensures ParameterFields(document, parameters).None? <==> exists p | p in parameters :: ParameterField(document, p).None?
    ensures ParameterFields(document, parameters).Some? ==>
              forall field :: field in ParameterFields(document, parameters).value <==> exists p | p in parameters :: ParameterField(document, p) == Some(field)
  {
    hide ParameterField;
    if parameters != [] {
      ParameterFieldsExact(document, parameters[1..]);
      assert forall p :: p in parameters <==> p == parameters[0] || p in parameters[1..];
    }
  }

  lemma {:induction false} BodyFieldsExact(document: Json, content: seq<(string, Json)>)
    ensures BodyFields(document, content).Some? <==> forall entry | entry in content :: MediaOk(document, entry.1)
    ensures BodyFields(document, content).Some? ==>
              forall field :: field in BodyFields(document, content).value <==>
                field.location == "body" && exists entry | entry in content :: MediaNames(document, entry.1, field.name)
  {
    hide MediaOk, MediaNames, SchemaInputNames, MediaSchema;
    if content != [] {
      BodyFieldsExact(document, content[1..]);
      MediaMeans(document, content[0].1);
      assert forall m :: m in content <==> m == content[0] || m in content[1..];
      if BodyFields(document, content).Some? {
        forall field ensures field in BodyFields(document, content).value <==>
          field.location == "body" && exists entry | entry in content :: MediaNames(document, entry.1, field.name) {
          BodyFieldsHead(document, content, field);
        }
      }
    }
  }

  lemma BodyFieldsHead(document: Json, content: seq<(string, Json)>, field: Field)
    requires content != [] && BodyFields(document, content).Some?
    ensures MediaSchema(content[0].1).Some? && SchemaInputNames(document, MediaSchema(content[0].1).value, {}).Some?
    ensures BodyFields(document, content[1..]).Some?
    ensures field in BodyFields(document, content).value <==>
            (field.location == "body" && field.name in SchemaInputNames(document, MediaSchema(content[0].1).value, {}).value)
            || field in BodyFields(document, content[1..]).value
  {
    hide SchemaInputNames, MediaSchema;
    var names := SchemaInputNames(document, MediaSchema(content[0].1).value, {}).value;
    var fields: seq<Field> := seq(|names|, i requires 0 <= i < |names| => Field("body", names[i]));
    if field.location == "body" && field.name in names {
      var i :| 0 <= i < |names| && names[i] == field.name;
      assert fields[i] == field;
    }
    assert BodyFields(document, content).value == fields + BodyFields(document, content[1..]).value;
  }

  /** Looking at an operation raises exactly when the document is malformed there, and otherwise yields exactly what
      the operation declares. */
  lemma OperationFieldsExact(document: Json, item: Json, operation: Json)
    requires item.Obj?
    ensures OperationFields(document, item, operation).Some? <==> OperationOk(document, item, operation)
    ensures OperationFields(document, item, operation).Some? ==>
              forall field :: field in OperationFields(document, item, operation).value <==> Declares(document, item, operation, field)
  {
    if operation.Obj? {
      ParametersMean(item, operation);
      BodyMeans(document, operation);
      hide ListOk, HasParameter, HasMedia, HasBody, Stands, Has, MediaOk, MediaNames, ParameterOf, ParameterField, ParameterFields, BodyFields, Parameters,
        BodyContent, BodyHasContent, BodyStands;
      if Parameters(item, operation).Some? {
        ParameterFieldsExact(document, Parameters(item, operation).value);
        forall p ensures forall field :: ParameterOf(document, p, field) <==> ParameterField(document, p) == Some(field) {
          ParameterMeans(document, p);
        }
      }
      if BodyContent(document, operation).Some? {
        BodyFieldsExact(document, BodyContent(document, operation).value);
      }
      MediaOfBodies(document, operation);
    }
  }

  lemma MediaOfBodies(document: Json, operation: Json)
    ensures (forall body :: HasBody(operation, body) ==> BodyOk(document, body)) <==>
              (forall body :: HasBody(operation, body) ==> BodyStands(document, body))
              && forall entry :: HasMedia(document, operation, entry) ==> MediaOk(document, entry.1)
  {
    hide Stands, Has, MediaOk, BodyStands, HasBody;
    if forall body :: HasBody(operation, body) ==> BodyOk(document, body) {
      forall entry | HasMedia(document, operation, entry) ensures MediaOk(document, entry.1) {
        var body, content :| HasBody(operation, body) && BodyHasContent(document, body, content) && entry in content.fields;
        assert BodyOk(document, body);
      }
    }
    if forall entry :: HasMedia(document, operation, entry) ==> MediaOk(document, entry.1) {
      forall body, content, entry | HasBody(operation, body) && BodyHasContent(document, body, content) && entry in content.fields ensures MediaOk(document, entry.1) {
        assert HasMedia(document, operation, entry);
      }
    }
  }

  predicate IsMethod(key: string) { Lower(key) in HTTP_METHODS }

  function FindingOf(key: string, path: string, field: Field): Finding {
    Finding(Lower(key), path, field.location, Normalize(field.name))
  }

  // ----- What is reported

  predicate IsHttpVerb(verb: string) {
    verb == "get" || verb == "post" || verb == "put" || verb == "patch" || verb == "delete" || verb == "options" || verb == "head"
  }

  predicate IsIdentityName(name: string) { name == "user_id" || name == "actor_id" || name == "subject" || name == "owner_id" }

  /** The key of an operation of the path, in whatever case. */
  ghost predicate IsOperationKey(key: string) { exists verb :: IsHttpVerb(verb) && IsVerb(key, verb) }

  /** The finding names the verb of the key, the path, and the field by the identity it reads as, and is not approved. */
  ghost predicate Reports(key: string, path: string, field: Field, approved: set<Finding>, f: Finding) {
    && IsHttpVerb(f.verb) && IsVerb(key, f.verb) && f.path == path && f.location == field.location
    && IsIdentityName(f.name) && Reads(field.name, f.name) && f !in approved
  }

  lemma VerbLetters(verb: string)
    ensures IsHttpVerb(verb) <==> verb in HTTP_METHODS
    ensures IsHttpVerb(verb) ==> forall i | 0 <= i < |verb| :: 'a' <= verb[i] <= 'z'
  {
  }

  lemma IdentityLetters(name: string)
    ensures IsIdentityName(name) <==> name in FORBIDDEN
    ensures IsIdentityName(name) ==> IsPlain(name)
  {
  }

  lemma MethodMeans(key: string)
    ensures IsMethod(key) <==> IsOperationKey(key)
  {
    hide Lower, IsVerb, IsHttpVerb;
    VerbLetters(Lower(key));
    if IsMethod(key) {
      LowerIsVerb(key, Lower(key));
    }
    if verb :| IsHttpVerb(verb) && IsVerb(key, verb) {
      VerbLetters(verb);
      LowerIsVerb(key, verb);
    }
  }

  lemma ReportsMeans(key: string, path: string, field: Field, approved: set<Finding>, f: Finding)
    requires IsMethod(key)
    ensures Reports(key, path, field, approved, f) <==> f == FindingOf(key, path, field) && f.name in FORBIDDEN && f !in approved
  {
    hide Lower, IsVerb, IsHttpVerb, Reads, IsIdentityName, Normalize, IsPlain;
    VerbLetters(f.verb);
    IdentityLetters(f.name);
    if IsHttpVerb(f.verb) {
      LowerIsVerb(key, f.verb);
    }
    if IsIdentityName(f.name) {
      NormalizeReads(field.name, f.name);
    }
  }

  /** A finding that operation k of a path must report. */
  ghost predicate Violates(document: Json, approved: set<Finding>, path: string, item: Json, k: nat, f: Finding)
    requires item.Obj? && k < |item.fields|
  {
    exists field :: Declares(document, item, item.fields[k].1, field) && Reports(item.fields[k].0, path, field, approved, f)
  }

  ghost predicate Raises(document: Json, item: Json, k: nat)
    requires item.Obj? && k < |item.fields|
  {
    IsOperationKey(item.fields[k].0) && !OperationOk(document, item, item.fields[k].1)
  }

  /** The innermost loop: the fields of one operation. */
  method CheckFields(key: string, path: string, fields: seq<Field>, approved: set<Finding>) returns (violations: set<Finding>)
    requires IsMethod(key)
    ensures forall f :: f in violations <==> exists field | field in fields :: Reports(key, path, field, approved, f)
  {
    hide FindingOf, Reports, IsMethod;
    violations := {};
    for i := 0 to |fields|
      invariant forall f :: f in violations <==> exists field | field in fields[..i] :: Reports(key, path, field, approved, f)
    {
      var finding := FindingOf(key, path, fields[i]);
      assert forall field :: field in fields[..i + 1] <==> field in fields[..i] || field == fields[i];
      forall f ensures Reports(key, path, fields[i], approved, f) <==> f == finding && f.name in FORBIDDEN && f !in approved {
        ReportsMeans(key, path, fields[i], approved, f);
      }
      if finding.name in FORBIDDEN && finding !in approved {
        violations := violations + {finding};
      }
    }
    assert fields[..|fields|] == fields;
  }

  /** The operations of one path; None when an exception is raised. */
  method CheckPath(document: Json, path: string, item: Json, approved: set<Finding>) returns (r: Option<set<Finding>>)
    requires item.Obj?
    ensures r.None? <==> exists k: nat | k < |item.fields| :: Raises(document, item, k)
    ensures r.Some? ==> forall f :: f in r.value <==> exists k: nat | k < |item.fields| :: Violates(document, approved, path, item, k, f)
  {
    hide OperationFields, Declares, Reports, OperationOk, IsOperationKey, IsMethod;
    var violations: set<Finding> := {};
    for i := 0 to |item.fields|
      invariant forall k: nat | k < i :: !Raises(document, item, k)
      invariant forall f :: f in violations <==> exists k: nat | k < i :: Violates(document, approved, path, item, k, f)
    {
      var key, operation := item.fields[i].0, item.fields[i].1;
      MethodMeans(key);
      if !IsMethod(key) {
        NothingReported(document, approved, path, item, i);
        continue;
      }
      var fields := OperationFields(document, item, operation);
      OperationFieldsExact(document, item, operation);
      if fields.None? {
        assert Raises(document, item, i);
        return None;
      }
      var found := CheckFields(key, path, fields.value, approved);
      assert forall f :: f in found <==> Violates(document, approved, path, item, i, f);
      violations := violations + found;
    }
    return Some(violations);
  }

  lemma NothingReported(document: Json, approved: set<Finding>, path: string, item: Json, k: nat)
    requires item.Obj? && k < |item.fields| && !IsOperationKey(item.fields[k].0)
    ensures forall f :: !Violates(document, approved, path, item, k, f)
  {
    hide Declares, IsVerb, IsHttpVerb, Reads;
  }

  /** The document has paths, and this is one of them. */
  ghost predicate HasPaths(document: Json, paths: Json) { Has(document, "paths", paths) && paths.Obj? }

  ghost predicate HasPath(document: Json, entry: (string, Json)) { exists paths :: HasPaths(document, paths) && entry in paths.fields }

  /** `document["paths"].items()` */
  function Paths(document: Json): Option<seq<(string, Json)>> {
    if !document.Obj? then None
    else
      var paths := Get(document.fields, "paths");
      if paths.Some? && paths.value.Obj? then Some(paths.value.fields) else None
  }

  lemma PathsMean(document: Json)
    ensures Paths(document).Some? <==> exists paths :: HasPaths(document, paths)
    ensures Paths(document).Some? ==> forall entry :: entry in Paths(document).value <==> HasPath(document, entry)
  {
    if document.Obj? {
      GetIsHas(document, "paths");
      if Paths(document).Some? {
        assert HasPaths(document, Get(document.fields, "paths").value);
      }
    } else {
      NothingInside(document);
    }
    hide Has, Get;
  }

  ghost predicate PathRaises(document: Json, item: Json) {
    !item.Obj? || exists k: nat | k < |item.fields| :: Raises(document, item, k)
  }

  ghost predicate PathViolates(document: Json, approved: set<Finding>, entry: (string, Json), f: Finding) {
    entry.1.Obj? && exists k: nat | k < |entry.1.fields| :: Violates(document, approved, entry.0, entry.1, k, f)
  }

  /** `forbidden_identity_inputs`: exactly the forbidden, unapproved inputs that some operation declares,
      in a parameter or anywhere in its body schemas, cyclic references included. */
  method ForbiddenIdentityInputs(document: Json, approved: set<Finding>) returns (r: Option<set<Finding>>)
    ensures r.None? <==> (forall paths :: !HasPaths(document, paths)) || exists entry :: HasPath(document, entry) && PathRaises(document, entry.1)
    ensures r.Some? ==> forall f :: f in r.value <==> exists entry :: HasPath(document, entry) && PathViolates(document, approved, entry, f)
  {
    hide Violates, Raises, HasPath, HasPaths;
    var paths := Paths(document);
    PathsMean(document);
    hide Paths;
    if paths.None? {
      return None;
    }
    var violations: set<Finding> := {};
    for i := 0 to |paths.value|
      invariant forall entry | entry in paths.value[..i] :: !PathRaises(document, entry.1)
      invariant forall f :: f in violations <==> exists entry | entry in paths.value[..i] :: PathViolates(document, approved, entry, f)
    {
      var entry := paths.value[i];
      assert forall e :: e in paths.value[..i + 1] <==> e in paths.value[..i] || e == entry;
      assert HasPath(document, entry);
      if !entry.1.Obj? {
        assert PathRaises(document, entry.1);
        return None;
      }
      var found := CheckPath(document, entry.0, entry.1, approved);
      if found.None? {
        assert PathRaises(document, entry.1);
        return None;
      }
      assert forall f :: f in found.value <==> PathViolates(document, approved, entry, f);
      hide PathViolates;
      violations := violations + found.value;
    }
    assert paths.value[..|paths.value|] == paths.value;
    return Some(violations);
  }
}
