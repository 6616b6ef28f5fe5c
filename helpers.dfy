/** runtimedocs/helpers.py: the parsers that describe a value as an ordered
    field record, and the native and plugin parser tables. */
module Helpers {
  import opened Values
  import opened Records

  /** A parser turns a value into its descriptive record. */
  type Parser = Value -> Record

  /** A parser table keyed by type tag. */
  type ParserMap = map<string, Parser>

  const TypeTag := "<class 'type'>"
  const BuiltinTag := "<class 'builtin_function_or_method'>"
  const FunctionTag := "<class 'function'>"

  function Min(a: int, b: int): int { if a <= b then a else b }
  function Max(a: int, b: int): int { if a <= b then b else a }

  /** Python's slice `s[:stop]`: the prefix of length `stop`, clipped to
      `|s|`; a negative `stop` counts from the end instead. */
  function SliceTo(s: string, stop: int): (r: string)
    ensures r <= s
    ensures 0 <= stop ==> |r| == Min(|s|, stop)
    ensures stop < 0 ==> |r| == Max(0, |s| + stop)
  {
    if 0 <= stop then (if stop < |s| then s[..stop] else s)
    else if |s| + stop > 0 then s[..|s| + stop]
    else ""
  }

  /** `default_type_parser(arg, max_stringify)`: `type` first, then `len`
      if the value has a length, then `keys` if it has keys, and the clipped
      `repr` as `value` last. */
  function DefaultTypeParser(arg: Value, maxStringify: int): (r: Record)
    ensures Keys(r) == ["type"]
                       + (if arg.length.Some? then ["len"] else [])
                       + (if arg.keys.Some? then ["keys"] else [])
                       + ["value"]
    ensures r[0].val == Text(GetType(arg))
    ensures arg.length.Some? ==> r[1].val == Count(arg.length.value)
    ensures arg.keys.Some? ==> r[|r| - 2].val == Text(arg.keys.value)
    ensures r[|r| - 1].val == Text(SliceTo(arg.repr, maxStringify))
  {
    var parsed := [Field("type", Text(GetType(arg)))];
    var parsed := if arg.length.Some? then parsed + [Field("len", Count(arg.length.value))] else parsed;
    var parsed := if arg.keys.Some? then parsed + [Field("keys", Text(arg.keys.value))] else parsed;
    var r := parsed + [Field("value", Text(SliceTo(arg.repr, maxStringify)))];
    KeysAre(r, ["type"]
               + (if arg.length.Some? then ["len"] else [])
               + (if arg.keys.Some? then ["keys"] else [])
               + ["value"]);
    r
  }

  /** `len` is present exactly when the value has a length, and then holds
      it; `keys` is present exactly when the value has keys; `type` and
      `value` always are. */
  lemma DefaultFieldsPresent(arg: Value, maxStringify: int)
    ensures Lookup(DefaultTypeParser(arg, maxStringify), "type") == Some(Text(GetType(arg)))
    ensures Lookup(DefaultTypeParser(arg, maxStringify), "len")
            == if arg.length.Some? then Some(Count(arg.length.value)) else None
    ensures Lookup(DefaultTypeParser(arg, maxStringify), "keys")
            == if arg.keys.Some? then Some(Text(arg.keys.value)) else None
    ensures Lookup(DefaultTypeParser(arg, maxStringify), "value")
            == Some(Text(SliceTo(arg.repr, maxStringify)))
  {
    var r := DefaultTypeParser(arg, maxStringify);
    LookupFirst(r, 0);
    LookupFirst(r, |r| - 1);
    DefaultOptionalFields(arg, maxStringify);
  }

  /** The `len` and `keys` half of `DefaultFieldsPresent`. */
  lemma DefaultOptionalFields(arg: Value, maxStringify: int)
    ensures Lookup(DefaultTypeParser(arg, maxStringify), "len")
            == if arg.length.Some? then Some(Count(arg.length.value)) else None
    ensures Lookup(DefaultTypeParser(arg, maxStringify), "keys")
            == if arg.keys.Some? then Some(Text(arg.keys.value)) else None
  {
    var r := DefaultTypeParser(arg, maxStringify);
    if arg.length.Some? {
      LookupFirst(r, 1);
    }
    if arg.keys.Some? {
      LookupFirst(r, |r| - 2);
    }
  }

  /** The `value` field is at most `max_stringify` characters long, is a
      prefix of the `repr`, and is the whole `repr` when that is short
      enough. */
  lemma DefaultValueClipped(arg: Value, maxStringify: int)
    requires 0 <= maxStringify
    ensures var v := DefaultTypeParser(arg, maxStringify)[|DefaultTypeParser(arg, maxStringify)| - 1].val;
            && v.Text?
            && |v.s| <= maxStringify
            && v.s <= arg.repr
            && (|arg.repr| <= maxStringify ==> v.s == arg.repr)
  {
  }

  /** `function_parser(arg)`: exactly `type`, `name`, `signature`,
      `fullargspec` and `isbuiltin`, in that order. */
  function FunctionParser(arg: Value): (r: Record)
    ensures Keys(r) == ["type", "name", "signature", "fullargspec", "isbuiltin"]
    ensures r[0].val == Text(GetType(arg))
    ensures r[1].val == Text(arg.name)
    ensures r[2].val == Text(arg.signature)
    ensures r[3].val == Text(arg.argspec)
    ensures r[4].val == Flag(arg.isBuiltin)
  {
    var parsed := [Field("type", Text(GetType(arg)))];
    var parsed := parsed + [Field("name", Text(arg.name))];
    var parsed := parsed + [Field("signature", Text(arg.signature))];
    var parsed := parsed + [Field("fullargspec", Text(arg.argspec))];
    var r := parsed + [Field("isbuiltin", Flag(arg.isBuiltin))];
    KeysAre(r, ["type", "name", "signature", "fullargspec", "isbuiltin"]);
    r
  }

  /** `class_parser(arg)`: the function parser's record, unchanged, with
      `inheritance_tree` added last. */
  function ClassParser(arg: Value): (r: Record)
    ensures |r| == |FunctionParser(arg)| + 1
    ensures r[..|r| - 1] == FunctionParser(arg)
    ensures Keys(r) == Keys(FunctionParser(arg)) + ["inheritance_tree"]
    ensures r[|r| - 1].val == Text(arg.mro)
  {
    var parsed := FunctionParser(arg);
    var r := parsed + [Field("inheritance_tree", Text(arg.mro))];
    assert r[..|r| - 1] == parsed;
    r
  }

  /** `get_type(arg)` is the first field of every record a parser of this
      module builds, under the name `type`. */
  lemma TypeFieldFirst(arg: Value, maxStringify: int)
    ensures DefaultTypeParser(arg, maxStringify)[0] == Field("type", Text(GetType(arg)))
    ensures FunctionParser(arg)[0] == Field("type", Text(GetType(arg)))
    ensures ClassParser(arg)[0] == Field("type", Text(GetType(arg)))
  {
    assert Keys(DefaultTypeParser(arg, maxStringify))[0] == "type";
    assert Keys(FunctionParser(arg))[0] == "type";
    assert ClassParser(arg)[0] == ClassParser(arg)[..|ClassParser(arg)| - 1][0];
  }

  /** `native_types_parsers_dict`: classes go to the class parser, routines
      and functions to the function parser. */
  function NativeTypesParsers(): (m: ParserMap)
    ensures m.Keys == {TypeTag, BuiltinTag, FunctionTag}
    ensures forall v :: m[TypeTag](v) == ClassParser(v)
    ensures forall v :: m[BuiltinTag](v) == FunctionParser(v) && m[FunctionTag](v) == FunctionParser(v)
  {
    map[TypeTag := ClassParser, BuiltinTag := FunctionParser, FunctionTag := FunctionParser]
  }

  /** `ChainMap(*chain).get(key)`: the entry of the first map that holds
      `key`, or nothing when none does. */
  function ChainGet<V>(chain: seq<map<string, V>>, key: string): (r: Option<V>)
    ensures r.Some? <==> exists i :: 0 <= i < |chain| && key in chain[i]
    ensures r.Some? ==> exists i :: 0 <= i < |chain| && key in chain[i] && r.value == chain[i][key]
                                    && forall j :: 0 <= j < i ==> key !in chain[j]
  {
    if |chain| == 0 then None
    else if key in chain[0] then Some(chain[0][key])
    else
      var r := ChainGet(chain[1..], key);
      assert forall i :: 1 <= i < |chain| ==> chain[i] == chain[1..][i - 1];
      r
  }

  /** `common_types_parsers_dict`: the plugin's extra table over the native
      one. An absent plugin contributes the empty table. */
  /** The map at index `i` decides a chain lookup when it is the first one
      that holds the key. */
  lemma {:induction false} ChainGetFirst<V>(chain: seq<map<string, V>>, key: string, i: nat)
    requires i < |chain| && key in chain[i]
    requires forall j :: 0 <= j < i ==> key !in chain[j]
    ensures ChainGet(chain, key) == Some(chain[i][key])
  {
    if i > 0 {
      ChainGetFirst(chain[1..], key, i - 1);
    }
  }

  function CommonTypesParsers(extra: ParserMap): seq<ParserMap>
  {
    [extra, NativeTypesParsers()]
  }

  /** Plugin entries take precedence over native ones. */
  lemma PluginOverNative(extra: ParserMap, tag: string)
    requires tag in extra
    ensures ChainGet(CommonTypesParsers(extra), tag) == Some(extra[tag])
  {
  }

  /** Without the plugin, common lookup is native lookup: exactly the three
      native tags resolve, to their native parsers. */
  lemma NoPluginIsNative(tag: string)
    ensures ChainGet(CommonTypesParsers(map[]), tag).Some? <==> tag in {TypeTag, BuiltinTag, FunctionTag}
    ensures tag in NativeTypesParsers() ==>
              ChainGet(CommonTypesParsers(map[]), tag) == Some(NativeTypesParsers()[tag])
  {
  }
}
