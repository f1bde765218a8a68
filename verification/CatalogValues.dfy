/**
 Deep copies of decoded documents (modelcatalog/catalog.go).  Go's maps, slices and pointers are
 references to mutable cells; `Within` says which cells a value reaches and `ContentOf` what a
 reader of those cells sees.
 */
module CatalogValues {

  /** What a pointer, a map or a slice refers to; a null reference is Go's nil. */
  class Cell<T> {
    var v: T

    constructor (v: T)
      ensures this.v == v
    {
      this.v := v;
    }
  }

  type Fields = Cell?<map<string, Value>>
  type Items = Cell?<seq<Value>>
  type Strings = Cell?<seq<string>>

  /** A YAML key that need not be a string; the decoder keeps its text and its kind. */
  datatype Key = TextKey(text: string) | NumberKey(n: int) | OtherKey(text: string)

  /** A value of type `any` in a decoded document.  A YAML mapping with a key that is no string is
      decoded into a map of another Go type, `Mapping` here, which the copying code does not know. */
  datatype Value =
    | Null | Scalar(text: string)
    | Object(fields: Fields) | Array(items: Items) | Texts(texts: Strings)
    | Mapping(entries: Cell?<map<Key, Value>>)

  /** The content of a value.  A nil map or slice of `any` differs from an empty one; nil and empty
      slices of strings are the same content. */
  datatype Tree =
    | TNull | TScalar(text: string)
    | TNoObject | TObject(fields: map<string, Tree>)
    | TNoArray | TArray(items: seq<Tree>)
    | TTexts(texts: seq<string>)
    | TNoMapping | TMapping(entries: map<Key, Tree>)

  /** `v` reaches only cells of `cells` and is nested at most `depth` deep. */
  ghost predicate Within(v: Value, cells: set<object>, depth: nat)
    reads cells
    decreases depth
  {
    match v
    case Object(c) =>
      c != null ==> c in cells && depth > 0 && forall k | k in c.v :: Within(c.v[k], cells, depth - 1)
    case Array(c) =>
      c != null ==> c in cells && depth > 0 && forall i | 0 <= i < |c.v| :: Within(c.v[i], cells, depth - 1)
    case Texts(c) => c != null ==> c in cells
    case Mapping(c) =>
      c != null ==> c in cells && depth > 0 && forall k | k in c.v :: Within(c.v[k], cells, depth - 1)
    case _ => true
  }

  ghost function ContentOf(v: Value, cells: set<object>, depth: nat): Tree
    requires Within(v, cells, depth)
    reads cells
    decreases depth, 0
  {
    match v
    case Null => TNull
    case Scalar(text) => TScalar(text)
    case Object(c) =>
      if c == null then TNoObject else TObject(map k | k in c.v :: ContentOf(c.v[k], cells, depth - 1))
    case Array(c) =>
      if c == null then TNoArray else TArray(ItemsOf(c.v, cells, depth - 1))
    case Texts(c) => TTexts(if c == null then [] else c.v)
    case Mapping(c) =>
      if c == null then TNoMapping else TMapping(map k | k in c.v :: ContentOf(c.v[k], cells, depth - 1))
  }

  ghost function ItemsOf(items: seq<Value>, cells: set<object>, depth: nat): (r: seq<Tree>)
    requires forall i | 0 <= i < |items| :: Within(items[i], cells, depth)
    reads cells
    ensures |r| == |items| && forall i | 0 <= i < |r| :: r[i] == ContentOf(items[i], cells, depth)
    decreases depth, |items| + 1
  {
    if items == [] then [] else [ContentOf(items[0], cells, depth)] + ItemsOf(items[1..], cells, depth)
  }

  /** No mapping with other keys than strings can be reached from `v` through maps and slices. */
  ghost predicate Plain(v: Value, cells: set<object>, depth: nat)
    requires Within(v, cells, depth)
    reads cells
    decreases depth
  {
    match v
    case Object(c) => c != null ==> forall k | k in c.v :: Plain(c.v[k], cells, depth - 1)
    case Array(c) => c != null ==> forall i | 0 <= i < |c.v| :: Plain(c.v[i], cells, depth - 1)
    case Mapping(c) => c == null
    case _ => true
  }

  /** `v` reaches a cell of `shared`. */
  ghost predicate Touches(v: Value, shared: set<object>, cells: set<object>, depth: nat)
    requires Within(v, cells, depth)
    reads cells
    decreases depth
  {
    match v
    case Object(c) => c != null && (c in shared || exists k | k in c.v :: Touches(c.v[k], shared, cells, depth - 1))
    case Array(c) =>
      c != null && (c in shared || exists i | 0 <= i < |c.v| :: Touches(c.v[i], shared, cells, depth - 1))
    case Texts(c) => c != null && c in shared
    case Mapping(c) => c != null && (c in shared || exists k | k in c.v :: Touches(c.v[k], shared, cells, depth - 1))
    case _ => false
  }

  /** More cells than necessary change nothing. */
  lemma {:induction false} Wider(v: Value, cells: set<object>, more: set<object>, shared: set<object>, depth: nat)
    requires Within(v, cells, depth) && cells <= more
    ensures Within(v, more, depth) && ContentOf(v, more, depth) == ContentOf(v, cells, depth)
    ensures Touches(v, shared, more, depth) <==> Touches(v, shared, cells, depth)
    decreases depth
  {
    match v
    case Object(c) =>
      if c != null {
        forall k | k in c.v
          ensures Within(c.v[k], more, depth - 1)
            && ContentOf(c.v[k], more, depth - 1) == ContentOf(c.v[k], cells, depth - 1)
          ensures Touches(c.v[k], shared, more, depth - 1) <==> Touches(c.v[k], shared, cells, depth - 1)
        {
          Wider(c.v[k], cells, more, shared, depth - 1);
        }
      }
    case Array(c) =>
      if c != null {
        forall i | 0 <= i < |c.v|
          ensures Within(c.v[i], more, depth - 1)
            && ContentOf(c.v[i], more, depth - 1) == ContentOf(c.v[i], cells, depth - 1)
          ensures Touches(c.v[i], shared, more, depth - 1) <==> Touches(c.v[i], shared, cells, depth - 1)
        {
          Wider(c.v[i], cells, more, shared, depth - 1);
        }
      }
    case Mapping(c) =>
      if c != null {
        forall k | k in c.v
          ensures Within(c.v[k], more, depth - 1)
            && ContentOf(c.v[k], more, depth - 1) == ContentOf(c.v[k], cells, depth - 1)
          ensures Touches(c.v[k], shared, more, depth - 1) <==> Touches(c.v[k], shared, cells, depth - 1)
        {
          Wider(c.v[k], cells, more, shared, depth - 1);
        }
      }
    case _ =>
  }

  /** `copy` has the shape of `v` in cells of `made`, except that it refers to the same mappings. */
  ghost predicate Mirrors(copy: Value, made: set<object>, v: Value, cells: set<object>, depth: nat)
    requires Within(v, cells, depth)
    reads made, cells
    decreases depth
  {
    match v
    case Object(c) =>
      copy.Object? && (c == null <==> copy.fields == null)
      && (c != null ==> copy.fields in made && copy.fields.v.Keys == c.v.Keys
                        && forall k | k in c.v :: Mirrors(copy.fields.v[k], made, c.v[k], cells, depth - 1))
    case Array(c) =>
      copy.Array? && (c == null <==> copy.items == null)
      && (c != null ==> copy.items in made && |copy.items.v| == |c.v|
                        && forall i | 0 <= i < |c.v| :: Mirrors(copy.items.v[i], made, c.v[i], cells, depth - 1))
    case Texts(c) =>
      copy.Texts? && (copy.texts != null ==> copy.texts in made)
      && (if copy.texts == null then [] else copy.texts.v) == (if c == null then [] else c.v)
    case _ => copy == v
  }

  lemma {:induction false} WiderMirrors(copy: Value, made: set<object>, more: set<object>, v: Value, cells: set<object>,
                                        depth: nat)
    requires Within(v, cells, depth) && Mirrors(copy, made, v, cells, depth) && made <= more
    ensures Mirrors(copy, more, v, cells, depth)
    decreases depth
  {
    match v
    case Object(c) =>
      if c != null {
        forall k | k in c.v
          ensures Mirrors(copy.fields.v[k], more, c.v[k], cells, depth - 1)
        {
          WiderMirrors(copy.fields.v[k], made, more, c.v[k], cells, depth - 1);
        }
      }
    case Array(c) =>
      if c != null {
        forall i | 0 <= i < |c.v|
          ensures Mirrors(copy.items.v[i], more, c.v[i], cells, depth - 1)
        {
          WiderMirrors(copy.items.v[i], made, more, c.v[i], cells, depth - 1);
        }
      }
    case _ =>
  }

  /** A mirror has the same content, and reaches a cell of the original exactly when the original
      reaches a mapping. */
  lemma {:induction false} MirrorFacts(copy: Value, made: set<object>, v: Value, cells: set<object>, depth: nat)
    requires Within(v, cells, depth) && Mirrors(copy, made, v, cells, depth) && made !! cells
    ensures Within(copy, made + cells, depth) && ContentOf(copy, made + cells, depth) == ContentOf(v, cells, depth)
    ensures Touches(copy, cells, made + cells, depth) <==> !Plain(v, cells, depth)
    decreases depth
  {
    match v
    case Object(c) =>
      if c != null {
        MirroredFields(copy.fields, made, c, cells, depth);
      }
    case Array(c) =>
      if c != null {
        MirroredItems(copy.items, made, c, cells, depth);
      }
    case Mapping(c) =>
      Wider(v, cells, made + cells, cells, depth);
    case _ =>
  }

  lemma {:induction false} MirroredFields(copy: Fields, made: set<object>, c: Fields, cells: set<object>, depth: nat)
    requires c != null && Within(Object(c), cells, depth)
      && Mirrors(Object(copy), made, Object(c), cells, depth) && made !! cells
    ensures Within(Object(copy), made + cells, depth)
    ensures ContentOf(Object(copy), made + cells, depth) == ContentOf(Object(c), cells, depth)
    ensures Touches(Object(copy), cells, made + cells, depth) <==> !Plain(Object(c), cells, depth)
    decreases depth, 0
  {
    forall k | k in c.v
      ensures Within(copy.v[k], made + cells, depth - 1)
      ensures ContentOf(copy.v[k], made + cells, depth - 1) == ContentOf(c.v[k], cells, depth - 1)
      ensures Touches(copy.v[k], cells, made + cells, depth - 1) <==> !Plain(c.v[k], cells, depth - 1)
    {
      MirrorFacts(copy.v[k], made, c.v[k], cells, depth - 1);
    }
    assert ContentOf(Object(copy), made + cells, depth).fields == ContentOf(Object(c), cells, depth).fields;
  }

  lemma {:induction false} MirroredItems(copy: Items, made: set<object>, c: Items, cells: set<object>, depth: nat)
    requires c != null && Within(Array(c), cells, depth)
      && Mirrors(Array(copy), made, Array(c), cells, depth) && made !! cells
    ensures Within(Array(copy), made + cells, depth)
    ensures ContentOf(Array(copy), made + cells, depth) == ContentOf(Array(c), cells, depth)
    ensures Touches(Array(copy), cells, made + cells, depth) <==> !Plain(Array(c), cells, depth)
    decreases depth, 0
  {
    forall i | 0 <= i < |c.v|
      ensures Within(copy.v[i], made + cells, depth - 1)
      ensures ContentOf(copy.v[i], made + cells, depth - 1) == ContentOf(c.v[i], cells, depth - 1)
      ensures Touches(copy.v[i], cells, made + cells, depth - 1) <==> !Plain(c.v[i], cells, depth - 1)
    {
      MirrorFacts(copy.v[i], made, c.v[i], cells, depth - 1);
    }
    assert ItemsOf(copy.v, made + cells, depth - 1) == ItemsOf(c.v, cells, depth - 1);
  }

  // ----- The copying code

  method CloneStrings(texts: Strings) returns (copy: Strings, ghost made: set<object>)
    ensures fresh(made) && (copy != null ==> copy in made)
    ensures copy == null <==> texts == null || texts.v == []
    ensures copy != null ==> copy.v == texts.v
  {
    if texts == null || texts.v == [] {
      return null, {};
    }
    copy := new Cell(texts.v);
    made := {copy};
  }

  method CloneValue(v: Value, ghost cells: set<object>, ghost depth: nat) returns (copy: Value, ghost made: set<object>)
    requires Within(v, cells, depth)
    ensures fresh(made) && Mirrors(copy, made, v, cells, depth)
    decreases depth, 1
  {
    match v
    case Object(c) =>
      var fields;
      fields, made := CloneMap(c, cells, depth);
      copy := Object(fields);
    case Array(c) =>
      var items;
      items, made := CloneSlice(c, cells, depth);
      copy := Array(items);
    case Texts(c) =>
      var texts;
      texts, made := CloneStrings(c);
      copy := Texts(texts);
    case _ =>
      copy, made := v, {};
  }

  /** The entries copied so far. */
  ghost predicate FieldsCopied(copies: map<string, Value>, made: set<object>, m: map<string, Value>, cells: set<object>,
                               depth: nat)
    reads made, cells
  {
    forall k | k in copies :: k in m && Within(m[k], cells, depth) && Mirrors(copies[k], made, m[k], cells, depth)
  }

  lemma AddField(copies: map<string, Value>, made: set<object>, m: map<string, Value>, cells: set<object>, depth: nat,
                 k: string, copy: Value, more: set<object>)
    requires FieldsCopied(copies, made, m, cells, depth)
    requires k in m && Within(m[k], cells, depth) && Mirrors(copy, more, m[k], cells, depth)
    ensures FieldsCopied(copies[k := copy], made + more, m, cells, depth)
  {
    WiderMirrors(copy, more, made + more, m[k], cells, depth);
    forall j | j in copies
      ensures j in m && Within(m[j], cells, depth) && Mirrors(copies[j], made + more, m[j], cells, depth)
    {
      WiderMirrors(copies[j], made, made + more, m[j], cells, depth);
    }
  }

  lemma AllFields(c: Fields, copy: Fields, made: set<object>, cells: set<object>, depth: nat)
    requires c != null && copy != null && Within(Object(c), cells, depth)
    requires copy.v.Keys == c.v.Keys && FieldsCopied(copy.v, made, c.v, cells, depth - 1)
    ensures Mirrors(Object(copy), made + {copy}, Object(c), cells, depth)
  {
    forall k | k in copy.v
      ensures Mirrors(copy.v[k], made + {copy}, c.v[k], cells, depth - 1)
    {
      WiderMirrors(copy.v[k], made, made + {copy}, c.v[k], cells, depth - 1);
    }
  }

  method CloneMap(c: Fields, ghost cells: set<object>, ghost depth: nat) returns (copy: Fields, ghost made: set<object>)
    requires Within(Object(c), cells, depth)
    ensures fresh(made) && Mirrors(Object(copy), made, Object(c), cells, depth)
    decreases depth, 0
  {
    if c == null {
      return null, {};
    }
    var out := new Cell(map[]);
    made := {};
    var pending := c.v.Keys;
    while pending != {}
      invariant fresh(out) && fresh(made) && out !in made
      invariant pending <= c.v.Keys && out.v.Keys == c.v.Keys - pending
      invariant FieldsCopied(out.v, made, c.v, cells, depth - 1)
    {
      hide Mirrors, FieldsCopied;
      var k :| k in pending;
      var value, more := CloneValue(c.v[k], cells, depth - 1);
      AddField(out.v, made, c.v, cells, depth - 1, k, value, more);
      out.v := out.v[k := value];
      made := made + more;
      pending := pending - {k};
    }
    AllFields(c, out, made, cells, depth);
    return out, made + {out};
  }

  ghost predicate ItemsCopied(copies: seq<Value>, made: set<object>, s: seq<Value>, cells: set<object>, depth: nat)
    reads made, cells
  {
    |copies| <= |s| && forall i | 0 <= i < |copies| ::
      Within(s[i], cells, depth) && Mirrors(copies[i], made, s[i], cells, depth)
  }

  lemma AddItem(copies: seq<Value>, made: set<object>, s: seq<Value>, cells: set<object>, depth: nat, copy: Value,
                more: set<object>)
    requires ItemsCopied(copies, made, s, cells, depth) && |copies| < |s|
    requires Within(s[|copies|], cells, depth) && Mirrors(copy, more, s[|copies|], cells, depth)
    ensures ItemsCopied(copies + [copy], made + more, s, cells, depth)
  {
    WiderMirrors(copy, more, made + more, s[|copies|], cells, depth);
    forall i | 0 <= i < |copies|
      ensures Within(s[i], cells, depth) && Mirrors(copies[i], made + more, s[i], cells, depth)
    {
      WiderMirrors(copies[i], made, made + more, s[i], cells, depth);
    }
  }

  lemma AllItems(c: Items, copy: Items, made: set<object>, cells: set<object>, depth: nat)
    requires c != null && copy != null && Within(Array(c), cells, depth)
    requires |copy.v| == |c.v| && ItemsCopied(copy.v, made, c.v, cells, depth - 1)
    ensures Mirrors(Array(copy), made + {copy}, Array(c), cells, depth)
  {
    forall i | 0 <= i < |copy.v|
      ensures Mirrors(copy.v[i], made + {copy}, c.v[i], cells, depth - 1)
    {
      WiderMirrors(copy.v[i], made, made + {copy}, c.v[i], cells, depth - 1);
    }
  }

  method CloneSlice(c: Items, ghost cells: set<object>, ghost depth: nat) returns (copy: Items, ghost made: set<object>)
    requires Within(Array(c), cells, depth)
    ensures fresh(made) && Mirrors(Array(copy), made, Array(c), cells, depth)
    decreases depth, 0
  {
    if c == null {
      return null, {};
    }
    var out := new Cell([]);
    made := {};
    for i := 0 to |c.v|
      invariant fresh(out) && fresh(made) && out !in made
      invariant |out.v| == i && ItemsCopied(out.v, made, c.v, cells, depth - 1)
    {
      hide Mirrors, ItemsCopied;
      var value, more := CloneValue(c.v[i], cells, depth - 1);
      AddItem(out.v, made, c.v, cells, depth - 1, value, more);
      out.v := out.v + [value];
      made := made + more;
    }
    AllItems(c, out, made, cells, depth);
    return out, made + {out};
  }
}
