/**
 * `parse_metadata` of the upload command line (scripts/upload.py): the
 * repeated `--metadata key=value` arguments folded into a dictionary.
 */
module UploadCli {
  import opened Optional
  import opened Strings

  type Metadata = map<string, string>

  /** An argument that names a pair; the others are skipped with a warning. */
  predicate IsPair(item: string) {
    '=' in item
  }

  /** Where `item.split("=", 1)` splits: the first '='. */
  function SeparatorAt(item: string): (k: nat)
    requires IsPair(item)
    ensures k < |item| && item[k] == '='
    ensures forall j :: 0 <= j < k ==> item[j] != '='
  {
    IndexOf(item, '=').value
  }

  /** `item.split("=", 1)` with both halves stripped. */
  function Pair(item: string): (string, string)
    requires IsPair(item)
  {
    var k := SeparatorAt(item);
    (Strip(item[..k]), Strip(item[k + 1..]))
  }

  /** What one argument contributes: its stripped pair, or nothing. */
  function Entry(item: string): Option<(string, string)> {
    if IsPair(item) then Some(Pair(item)) else None
  }

  /** The dictionary after a loop has seen `items` in order, each entry overwriting its key. */
  function Fold(items: seq<string>, entry: string -> Option<(string, string)>): Metadata {
    if items == [] then map[]
    else
      var before := Fold(items[..|items| - 1], entry);
      match entry(items[|items| - 1])
      case None => before
      case Some(kv) => before[kv.0 := kv.1]
  }

  /** The dictionary `parse_metadata` builds from a list of arguments. */
  function Parsed(items: seq<string>): Metadata {
    Fold(items, Entry)
  }

  /**
   * `parse_metadata(metadata_args)`: `None` and the empty list give `{}`;
   * otherwise the items are read one by one.
   */
  method ParseMetadata(metadataArgs: Option<seq<string>>) returns (metadata: Metadata)
    ensures metadataArgs.None? ==> metadata == map[]
    ensures metadataArgs.Some? ==> metadata == Parsed(metadataArgs.value)
  {
    if metadataArgs.None? || metadataArgs.value == [] {
      return map[];
    }
    var items := metadataArgs.value;
    metadata := map[];
    var i := 0;
    while i < |items|
      invariant 0 <= i <= |items|
      invariant metadata == Fold(items[..i], Entry)
    {
      var item := items[i];
      assert items[..i + 1][..i] == items[..i];
      if !IsPair(item) {
        i := i + 1;
        continue;
      }
      var (key, value) := Pair(item);
      metadata := metadata[key := value];
      i := i + 1;
    }
    assert items[..i] == items;
  }

  /** `entry` gives a pair for `item` whose key is `key`. */
  predicate Gives(entry: string -> Option<(string, string)>, item: string, key: string) {
    entry(item).Some? && entry(item).value.0 == key
  }

  /** The keys of a fold are the keys of the entries it saw. */
  lemma {:induction false} FoldKeys(items: seq<string>, entry: string -> Option<(string, string)>, key: string)
    ensures key in Fold(items, entry) <==> exists i :: 0 <= i < |items| && Gives(entry, items[i], key)
  {
    if items != [] {
      var n := |items| - 1;
      var prefix := items[..n];
      FoldKeys(prefix, entry, key);
      if key in Fold(items, entry) && !Gives(entry, items[n], key) {
        var i :| 0 <= i < n && Gives(entry, prefix[i], key);
        assert items[i] == prefix[i];
      }
      if exists i :: 0 <= i < |items| && Gives(entry, items[i], key) {
        var i :| 0 <= i < |items| && Gives(entry, items[i], key);
        if i < n {
          assert Gives(entry, prefix[i], key);
        }
      }
    }
  }

  /** In a fold, a key holds the value of the last entry naming it. */
  lemma {:induction false} FoldLastWins(items: seq<string>, entry: string -> Option<(string, string)>, i: nat, key: string)
    requires i < |items| && Gives(entry, items[i], key)
    requires forall j :: i < j < |items| ==> !Gives(entry, items[j], key)
    ensures key in Fold(items, entry) && Fold(items, entry)[key] == entry(items[i]).value.1
  {
    var n := |items| - 1;
    if i < n {
      var prefix := items[..n];
      assert prefix[i] == items[i];
      forall j | i < j < n
        ensures !Gives(entry, prefix[j], key)
      {
        assert prefix[j] == items[j];
      }
      FoldLastWins(prefix, entry, i, key);
      assert !Gives(entry, items[n], key);
    }
  }

  /** `item` is a pair whose stripped key is `key`. */
  predicate Names(item: string, key: string) {
    IsPair(item) && Pair(item).0 == key
  }

  /** The keys are exactly the stripped keys of the pairs among the items. */
  lemma ParsedKeys(items: seq<string>, key: string)
    ensures key in Parsed(items) <==> exists i :: 0 <= i < |items| && Names(items[i], key)
  {
    FoldKeys(items, Entry, key);
    assert forall i :: 0 <= i < |items| ==> (Gives(Entry, items[i], key) <==> Names(items[i], key));
  }

  /**
   * A later pair with the same key overwrites an earlier one: the value of a
   * key is that of the last pair naming it.
   */
  lemma LastPairWins(items: seq<string>, i: nat, key: string)
    requires i < |items| && Names(items[i], key)
    requires forall j :: i < j < |items| ==> !Names(items[j], key)
    ensures key in Parsed(items) && Parsed(items)[key] == Pair(items[i]).1
  {
    assert forall j :: 0 <= j < |items| ==> (Gives(Entry, items[j], key) <==> Names(items[j], key));
    FoldLastWins(items, Entry, i, key);
  }

  /** An argument without '=' leaves the dictionary as it was. */
  lemma NonPairSkipped(items: seq<string>, item: string)
    requires !IsPair(item)
    ensures Parsed(items + [item]) == Parsed(items)
  {
    assert (items + [item])[..|items|] == items;
  }

  /** Only the first '=' splits: the value keeps any later ones. */
  lemma SplitAtFirstEquals(key: string, value: string)
    requires '=' !in key
    ensures IsPair(key + "=" + value)
    ensures Pair(key + "=" + value) == (Strip(key), Strip(value))
  {
    var item := key + "=" + value;
    assert item[|key|] == '=';
    var k := SeparatorAt(item);
    assert k <= |key|;
    forall j | 0 <= j < |key|
      ensures item[j] != '='
    {
      assert item[j] == key[j];
    }
    assert k == |key|;
    assert item[..|key|] == key;
    assert item[|key| + 1..] == value;
  }
}
