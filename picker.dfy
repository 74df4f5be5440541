/** web-interface/js/picker.js: the `PickerModal` that lists the items of a
    `picker` reply grouped by type, names their files and launches bulk
    downloads on a 500 ms schedule. The clock read by `generateFilename` and
    the answer of `confirm` are inputs. */
module Picker {
  import opened Wrappers
  import opened Strings
  import opened Responses
  import Utils

  // ---------------------------------------------------------------------
  // Lookup tables

  /** `item.type || 'unknown'`: the group an item belongs to. */
  function GroupKey(item: PickerItem): string {
    OrElse(item.kind, "unknown")
  }

  /** An entry of the `typeMap` of `getTypeInfo`. */
  datatype TypeInfo = TypeInfo(icon: string, title: string)

  const UnknownInfo: TypeInfo := TypeInfo("fas fa-file", "Khác")

  /** `getTypeInfo(type)`: photos, videos and GIFs have their own entry,
      every other type shares the `unknown` one. */
  function GetTypeInfo(kind: string): (r: TypeInfo)
    ensures kind == "photo" ==> r == TypeInfo("fas fa-image", "Hình ảnh")
    ensures kind == "video" ==> r == TypeInfo("fas fa-video", "Video")
    ensures kind == "gif" ==> r == TypeInfo("fas fa-file-image", "GIF")
    ensures kind !in {"photo", "video", "gif"} ==> r == UnknownInfo
  {
    if kind == "photo" then TypeInfo("fas fa-image", "Hình ảnh")
    else if kind == "video" then TypeInfo("fas fa-video", "Video")
    else if kind == "gif" then TypeInfo("fas fa-file-image", "GIF")
    else UnknownInfo
  }

  /** `getFileExtension(type)`; `None` is an `undefined` type. */
  function FileExtension(kind: Option<string>): (r: string)
    ensures kind == Some("photo") ==> r == "jpg"
    ensures kind == Some("video") ==> r == "mp4"
    ensures kind == Some("gif") ==> r == "gif"
    ensures kind !in {Some("photo"), Some("video"), Some("gif")} ==> r == "bin"
  {
    if kind == Some("photo") then "jpg"
    else if kind == Some("video") then "mp4"
    else if kind == Some("gif") then "gif"
    else "bin"
  }

  /** The two tables know the same types: a type has its own entry in
      `typeMap` exactly when it has its own extension. */
  lemma TablesAgree(kind: string)
    ensures GetTypeInfo(kind) != UnknownInfo <==> FileExtension(Some(kind)) != "bin"
  {
    if kind !in {"photo", "video", "gif"} {
      assert Some(kind) !in {Some("photo"), Some("video"), Some("gif")};
    }
  }

  // ---------------------------------------------------------------------
  // File names

  /** How a type is written into a template string: `undefined` when it is
      absent. */
  function KindText(kind: Option<string>): string {
    match kind
    case None => "undefined"
    case Some(k) => k
  }

  /** `generateFilename(item, index, type)`: `<type>_<index + 1>_<timestamp>.<ext>`. */
  function GenerateFilename(kind: Option<string>, index: nat, timestamp: int): string {
    KindText(kind) + "_" + (NatToString(index + 1) + "_" + (IntToString(timestamp) + "." + FileExtension(kind)))
  }

  /** No piece after the type holds an underscore. */
  predicate NoUnderscore(s: string) {
    forall i :: 0 <= i < |s| ==> s[i] !in {'_'}
  }

  lemma TimestampNoUnderscore(t: int)
    ensures NoUnderscore(IntToString(t))
  {
    var s := IntToString(t);
    if t < 0 {
      var digits := NatToString(-t);
      forall i | 0 <= i < |s| ensures s[i] !in {'_'} {
        if i > 0 {
          assert s[i] == digits[i - 1];
        }
      }
    }
  }

  lemma TailNoUnderscore(t: int, kind: Option<string>)
    ensures NoUnderscore(IntToString(t) + "." + FileExtension(kind))
  {
    var time := IntToString(t);
    var ext := FileExtension(kind);
    var tail := time + "." + ext;
    TimestampNoUnderscore(t);
    forall i | 0 <= i < |tail| ensures tail[i] !in {'_'} {
      if i < |time| {
        assert tail[i] == time[i];
      } else if i > |time| {
        assert tail[i] == ext[i - |time| - 1];
      }
    }
  }

  /** A generated name splits on `_` into the pieces of the type, then the
      1-based index, then the timestamp with the extension. */
  lemma FilenamePieces(kind: Option<string>, index: nat, timestamp: int)
    ensures Split(GenerateFilename(kind, index, timestamp), {'_'})
         == Split(KindText(kind), {'_'}) + [NatToString(index + 1), IntToString(timestamp) + "." + FileExtension(kind)]
  {
    var number := NatToString(index + 1);
    var tail := IntToString(timestamp) + "." + FileExtension(kind);
    TailNoUnderscore(timestamp, kind);
    SplitNoSeparator(tail, {'_'});
    assert NoUnderscore(number);
    SplitAfterPiece(number, '_', tail, {'_'});
    SplitConcat(KindText(kind), '_', number + ['_'] + tail, {'_'});
  }

  /** Names generated for different indexes differ, whatever the types and
      the timestamps. */
  lemma FilenamesDistinct(kind1: Option<string>, i: nat, t1: int, kind2: Option<string>, j: nat, t2: int)
    requires GenerateFilename(kind1, i, t1) == GenerateFilename(kind2, j, t2)
    ensures i == j
  {
    FilenamePieces(kind1, i, t1);
    FilenamePieces(kind2, j, t2);
    var a1 := Split(KindText(kind1), {'_'});
    var a2 := Split(KindText(kind2), {'_'});
    var x1 := [NatToString(i + 1), IntToString(t1) + "." + FileExtension(kind1)];
    var x2 := [NatToString(j + 1), IntToString(t2) + "." + FileExtension(kind2)];
    assert a1 + x1 == a2 + x2;
    assert |a1| == |a2|;
    assert (a1 + x1)[|a1|] == NatToString(i + 1);
    assert (a2 + x2)[|a2|] == NatToString(j + 1);
    NatToStringInjective(i + 1, j + 1);
  }

  // ---------------------------------------------------------------------
  // Grouping

  /** The items of group `key`, in input order. */
  function OfKind(items: seq<PickerItem>, key: string): (r: seq<PickerItem>)
    ensures |r| <= |items|
    ensures forall k :: 0 <= k < |r| ==> GroupKey(r[k]) == key
  {
    if items == [] then []
    else
      var last := items[|items| - 1];
      OfKind(items[..|items| - 1], key) + (if GroupKey(last) == key then [last] else [])
  }

  /** The group keys in order of first appearance (the key order of the
      object `groupItemsByType` builds). */
  function KeyOrder(items: seq<PickerItem>): seq<string> {
    if items == [] then []
    else
      var rest := KeyOrder(items[..|items| - 1]);
      var key := GroupKey(items[|items| - 1]);
      if key in rest then rest else rest + [key]
  }

  predicate NoDuplicates(keys: seq<string>) {
    forall j, k :: 0 <= j < k < |keys| ==> keys[j] != keys[k]
  }

  /** `items` and keys in first-appearance order: every item's key is listed,
      no key twice, and a key that is not listed has an empty group. */
  lemma {:induction false} KeyOrderSound(items: seq<PickerItem>)
    ensures NoDuplicates(KeyOrder(items))
    ensures forall k :: 0 <= k < |items| ==> GroupKey(items[k]) in KeyOrder(items)
    ensures forall key :: key !in KeyOrder(items) ==> OfKind(items, key) == []
  {
    if items != [] {
      var prefix := items[..|items| - 1];
      KeyOrderSound(prefix);
      forall k | 0 <= k < |items| ensures GroupKey(items[k]) in KeyOrder(items) {
        if k < |prefix| {
          assert items[k] == prefix[k];
        }
      }
    }
  }

  /** The total size of the groups of `keys`. */
  function SumSizes(items: seq<PickerItem>, keys: seq<string>): nat {
    if keys == [] then 0 else |OfKind(items, keys[0])| + SumSizes(items, keys[1..])
  }

  lemma {:induction false} SumSizesAppendItem(items: seq<PickerItem>, keys: seq<string>)
    requires items != [] && NoDuplicates(keys)
    ensures SumSizes(items, keys) == SumSizes(items[..|items| - 1], keys)
      + (if GroupKey(items[|items| - 1]) in keys then 1 else 0)
  {
    if keys != [] {
      assert NoDuplicates(keys[1..]) by {
        forall j, k | 0 <= j < k < |keys[1..]| ensures keys[1..][j] != keys[1..][k] {
          assert keys[1..][j] == keys[j + 1] && keys[1..][k] == keys[k + 1];
        }
      }
      SumSizesAppendItem(items, keys[1..]);
      var key := GroupKey(items[|items| - 1]);
      if key == keys[0] {
        assert key !in keys[1..] by {
          forall k | 0 <= k < |keys[1..]| ensures keys[1..][k] != key {
            assert keys[1..][k] == keys[k + 1];
          }
        }
      } else {
        assert key in keys <==> key in keys[1..];
      }
    }
  }

  lemma {:induction false} SumSizesAppendKey(items: seq<PickerItem>, keys: seq<string>, key: string)
    ensures SumSizes(items, keys + [key]) == SumSizes(items, keys) + |OfKind(items, key)|
  {
    if keys != [] {
      assert (keys + [key])[1..] == keys[1..] + [key];
      SumSizesAppendKey(items, keys[1..], key);
    }
  }

  /** Every item lands in exactly one group: the group sizes add up to the
      number of items. */
  lemma {:induction false} GroupSizesSum(items: seq<PickerItem>)
    ensures SumSizes(items, KeyOrder(items)) == |items|
  {
    if items != [] {
      var prefix := items[..|items| - 1];
      var key := GroupKey(items[|items| - 1]);
      GroupSizesSum(prefix);
      KeyOrderSound(prefix);
      var keys := KeyOrder(prefix);
      if key in keys {
        SumSizesAppendItem(items, keys);
      } else {
        assert NoDuplicates(keys + [key]);
        SumSizesAppendItem(items, keys + [key]);
        SumSizesAppendKey(prefix, keys, key);
        assert OfKind(prefix, key) == [];
      }
    }
  }

  /** A group keeps the input order: it is a subsequence of the items. */
  lemma {:induction false} OfKindOrdered(items: seq<PickerItem>, key: string)
    ensures Utils.IsSubsequence(OfKind(items, key), items)
  {
    if items != [] {
      var prefix := items[..|items| - 1];
      OfKindOrdered(prefix, key);
      SubsequenceAppend(OfKind(prefix, key), prefix, items[|items| - 1], GroupKey(items[|items| - 1]) == key);
      assert prefix + [items[|items| - 1]] == items;
    }
  }

  lemma {:induction false} SubsequenceAppend(a: seq<PickerItem>, b: seq<PickerItem>, x: PickerItem, keep: bool)
    requires Utils.IsSubsequence(a, b)
    ensures Utils.IsSubsequence(a + (if keep then [x] else []), b + [x])
    decreases |b|
  {
    var a' := a + (if keep then [x] else []);
    var b' := b + [x];
    if a == [] {
      if keep {
        assert a' == [x];
        SubsequenceOfSingleton(x, b);
      } else {
        assert a' == [];
      }
    } else {
      assert b != [];
      assert a'[0] == a[0] && b'[0] == b[0];
      assert a'[1..] == a[1..] + (if keep then [x] else []);
      assert b'[1..] == b[1..] + [x];
      if a[0] == b[0] && Utils.IsSubsequence(a[1..], b[1..]) {
        SubsequenceAppend(a[1..], b[1..], x, keep);
      } else {
        SubsequenceAppend(a, b[1..], x, keep);
      }
    }
  }

  lemma {:induction false} SubsequenceOfSingleton(x: PickerItem, b: seq<PickerItem>)
    ensures Utils.IsSubsequence([x], b + [x])
    decreases |b|
  {
    if b != [] {
      assert (b + [x])[1..] == b[1..] + [x];
      SubsequenceOfSingleton(x, b[1..]);
    } else {
      assert b + [x] == [x];
      assert Utils.IsSubsequence([x][1..], [x][1..]);
    }
  }

  /** `groupItemsByType`: the `forEach` that pushes every item onto the
      group of its type. */
  method GroupItemsByType(items: seq<PickerItem>) returns (order: seq<string>, groups: map<string, seq<PickerItem>>)
    ensures order == KeyOrder(items)
    ensures forall key :: key in groups <==> key in order
    ensures forall key :: key in groups ==> groups[key] == OfKind(items, key)
  {
    order := [];
    groups := map[];
    var i := 0;
    while i < |items|
      invariant 0 <= i <= |items|
      invariant order == KeyOrder(items[..i])
      invariant forall key :: key in groups <==> key in order
      invariant forall key :: key in groups ==> groups[key] == OfKind(items[..i], key)
    {
      var item := items[i];
      var key := OrElse(item.kind, "unknown");
      assert items[..i + 1][..i] == items[..i] && items[..i + 1][i] == item;
      KeyOrderSound(items[..i]);
      if key !in groups {
        groups := groups[key := []];
        order := order + [key];
      }
      groups := groups[key := groups[key] + [item]];
      i := i + 1;
    }
    assert items[..|items|] == items;
  }

  // ---------------------------------------------------------------------
  // Bulk download

  /** What `createBulkDownloadSection` renders when there is a section; the
      markup itself is presentation and is not modelled. */
  const BulkSectionMarkup: string := "<bulk-download-options>"

  /** `createBulkDownloadSection`: nothing unless the reply lists at least
      two items. */
  function BulkSection(data: Reply): (r: string)
    ensures r == "" <==> data.picker.None? || |data.picker.value| <= 1
  {
    if data.picker.None? || |data.picker.value| <= 1 then "" else BulkSectionMarkup
  }

  /** The items a bulk button asks for: all of them for `all`, otherwise
      those whose `type` is exactly the given one. */
  function Selected(items: seq<PickerItem>, kind: string): (r: seq<PickerItem>)
    ensures kind == "all" ==> r == items
    ensures kind != "all" ==> forall k :: 0 <= k < |r| ==> r[k].kind == Some(kind) && r[k] in items
    ensures kind != "all" ==> forall k :: 0 <= k < |items| && items[k].kind == Some(kind) ==> items[k] in r
  {
    if kind == "all" then items
    else if items == [] then []
    else (if items[0].kind == Some(kind) then [items[0]] else []) + Selected(items[1..], kind)
  }

  /** One download started by `bulkDownload`: its delay in milliseconds, its
      url and its file name. */
  datatype Launch = Launch(delay: nat, url: Option<string>, filename: string)

  /** What pressing a bulk button does. */
  datatype BulkOutcome =
    | NoPicker                        // the reply has no picker list
    | NothingToDownload               // the alert: nothing matches
    | Declined                        // the confirm was answered no
    | Scheduled(launches: seq<Launch>)

  const LaunchSpacing: nat := 500

  class PickerModal {
    var isVisible: bool
    var currentData: Option<Reply>

    constructor()
      ensures !isVisible && currentData == None
    {
      isVisible := false;
      currentData := None;
    }

    method Show(data: Reply)
      modifies this
      ensures isVisible && currentData == Some(data)
    {
      currentData := Some(data);
      isVisible := true;
    }

    method Hide()
      modifies this
      ensures !isVisible && currentData == None
    {
      isVisible := false;
      currentData := None;
    }

    /** `bulkDownload(type)`, with the answer of `confirm` and the clock
        `generateFilename` reads at each step as inputs. With no current
        reply the source throws before doing anything, which is `NoPicker`
        here too. */
    method BulkDownload(kind: string, confirmed: bool, clock: nat -> int) returns (r: BulkOutcome)
      ensures currentData.None? || currentData.value.picker.None? <==> r == NoPicker
      ensures r == NothingToDownload <==>
                currentData.Some? && currentData.value.picker.Some? && Selected(currentData.value.picker.value, kind) == []
      ensures r == Declined ==> !confirmed
      ensures r.Scheduled? ==> confirmed && currentData.Some? && currentData.value.picker.Some?
      ensures r.Scheduled? ==>
                var chosen := Selected(currentData.value.picker.value, kind);
                && |r.launches| == |chosen| > 0
                && forall i :: 0 <= i < |chosen| ==>
                     r.launches[i] == Launch(i * LaunchSpacing, chosen[i].url, GenerateFilename(chosen[i].kind, i, clock(i)))
      ensures (confirmed && currentData.Some? && currentData.value.picker.Some?
               && Selected(currentData.value.picker.value, kind) != []) ==> r.Scheduled?
    {
      if currentData.None? || currentData.value.picker.None? {
        return NoPicker;
      }
      var chosen := Selected(currentData.value.picker.value, kind);
      if |chosen| == 0 {
        return NothingToDownload;
      }
      if !confirmed {
        return Declined;
      }
      var launches: seq<Launch> := [];
      var i := 0;
      while i < |chosen|
        invariant 0 <= i <= |chosen|
        invariant |launches| == i
        invariant forall k :: 0 <= k < i ==>
                    launches[k] == Launch(k * LaunchSpacing, chosen[k].url, GenerateFilename(chosen[k].kind, k, clock(k)))
      {
        var item := chosen[i];
        var filename := GenerateFilename(item.kind, i, clock(i));
        launches := launches + [Launch(i * LaunchSpacing, item.url, filename)];
        i := i + 1;
      }
      r := Scheduled(launches);
    }
  }

  /** The launches of a bulk download have pairwise distinct file names and
      are spaced 500 ms apart. */
  lemma LaunchesDistinct(launches: seq<Launch>, chosen: seq<PickerItem>, clock: nat -> int)
    requires |launches| == |chosen|
    requires forall i :: 0 <= i < |chosen| ==>
               launches[i] == Launch(i * LaunchSpacing, chosen[i].url, GenerateFilename(chosen[i].kind, i, clock(i)))
    ensures forall i, j :: 0 <= i < j < |launches| ==> launches[i].filename != launches[j].filename
    ensures forall i :: 0 < i < |launches| ==> launches[i].delay == launches[i - 1].delay + LaunchSpacing
  {
    forall i, j | 0 <= i < j < |launches| ensures launches[i].filename != launches[j].filename {
      if launches[i].filename == launches[j].filename {
        FilenamesDistinct(chosen[i].kind, i, clock(i), chosen[j].kind, j, clock(j));
      }
    }
  }
}
