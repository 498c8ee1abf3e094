/** The image uploader: accepting submitted files up to a capacity,
    removing an image by id and moving an image to another position. The
    list itself belongs to the page; each operation yields the list to hand
    back to it. */
module Uploader {
  import opened StoryTypes
  import opened Text
  import Seqs

  /** The capacity the page uses. */
  const DefaultMaxImages := 10

  /** What the browser mints for a file it accepts: the id built from the
      clock and a random number, and the local preview handle. */
  datatype Minted = Minted(id: string, preview: string)

  /** The data URL a FileReader produces for `f`. */
  function DataUrl(f: SourceFile): string
  {
    "data:" + f.fileType + ";base64," + f.encoded
  }

  /** `result.split(",")[1]`: the piece between the first and the second
      comma (or the end), and `undefined` when there is no comma. */
  function FileToBase64(result: string): (payload: Option<string>)
    ensures payload.Some? <==> ',' in result
    ensures payload.Some? ==> ',' !in payload.value
  {
    var pieces := Split(result, ',');
    if |pieces| > 1 then Some(pieces[1]) else None
  }

  /** For a data URL whose type and payload hold no comma, the prefix is
      stripped and exactly the payload is kept. */
  lemma FileToBase64OfDataUrl(mimeType: string, payload: string)
    requires ',' !in mimeType && ',' !in payload
    ensures FileToBase64("data:" + mimeType + ";base64," + payload) == Some(payload)
  {
    var head := "data:" + mimeType + ";base64";
    assert ',' !in head by {
      assert forall i :: 0 <= i < |head| ==> head[i] != ',' by {
        forall i | 0 <= i < |head| ensures head[i] != ',' {
          if 5 <= i < 5 + |mimeType| {
            assert head[i] == mimeType[i - 5];
          }
        }
      }
    }
    SplitJoin([head, payload], ',');
    assert Join([head, payload], ',') == head + [','] + Join([payload], ',');
    assert "data:" + mimeType + ";base64," + payload == head + [','] + payload;
  }

  /** Every data URL holds the comma that ends its prefix. */
  lemma DataUrlHasComma(f: SourceFile)
    ensures ',' in DataUrl(f)
  {
    assert DataUrl(f)[5 + |f.fileType| + 7] == ',';
  }

  predicate IsImageType(t: string)
  {
    StartsWith(t, "image/")
  }

  /** The image built from an accepted file and what was minted for it. */
  function ImageOf(f: SourceFile, m: Minted): (img: UploadedImage)
    ensures img.mimeType == f.fileType && img.file == f && img.id == m.id
  {
    DataUrlHasComma(f);
    UploadedImage(m.id, f, m.preview, FileToBase64(DataUrl(f)).value, f.fileType)
  }

  /** The images added for `files` (with `minted[i]` minted for file `i`):
      one per image file, in submission order; other files are skipped. */
  function Accepted(files: seq<SourceFile>, minted: seq<Minted>): (added: seq<UploadedImage>)
    requires |minted| == |files|
    ensures |added| <= |files|
  {
    if files == [] then []
    else AcceptedOne(files[0], minted[0]) + Accepted(files[1..], minted[1..])
  }

  /** The image added for one file: none for a non-image. */
  function AcceptedOne(f: SourceFile, m: Minted): seq<UploadedImage>
  {
    if IsImageType(f.fileType) then [ImageOf(f, m)] else []
  }

  /** Every added image has an image type, taken from its own file, and
      comes from one of the submitted files. */
  lemma {:induction false} AcceptedAreImages(files: seq<SourceFile>, minted: seq<Minted>)
    requires |minted| == |files|
    ensures forall img :: img in Accepted(files, minted) ==>
      IsImageType(img.mimeType) && img.mimeType == img.file.fileType && img.file in files
  {
    if files != [] {
      AcceptedAreImages(files[1..], minted[1..]);
      forall img | img in Accepted(files, minted)
        ensures IsImageType(img.mimeType) && img.mimeType == img.file.fileType && img.file in files
      {
        if img in Accepted(files[1..], minted[1..]) {
          assert img.file in files[1..];
        }
      }
    }
  }

  /** The number of image files among `files`. */
  function CountImages(files: seq<SourceFile>): nat
  {
    if files == [] then 0 else (if IsImageType(files[0].fileType) then 1 else 0) + CountImages(files[1..])
  }

  /** Exactly one image is added per image file. */
  lemma {:induction false} AcceptedCountsImageFiles(files: seq<SourceFile>, minted: seq<Minted>)
    requires |minted| == |files|
    ensures |Accepted(files, minted)| == CountImages(files)
  {
    if files != [] {
      AcceptedCountsImageFiles(files[1..], minted[1..]);
    }
  }

  /** Submission order is kept: accepting two batches one after the other
      adds the same images as accepting them as one batch. */
  lemma {:induction false} AcceptedAppend(f1: seq<SourceFile>, m1: seq<Minted>, f2: seq<SourceFile>, m2: seq<Minted>)
    requires |m1| == |f1| && |m2| == |f2|
    ensures Accepted(f1 + f2, m1 + m2) == Accepted(f1, m1) + Accepted(f2, m2)
  {
    if f1 == [] {
      Seqs.EmptyAppend(f2);
      Seqs.EmptyAppend(m2);
      Seqs.EmptyAppend(Accepted(f2, m2));
    } else {
      AcceptedAppend(f1[1..], m1[1..], f2, m2);
      Seqs.HeadOfAppend(f1, f2);
      Seqs.HeadOfAppend(m1, m2);
      Seqs.AppendAssoc(AcceptedOne(f1[0], m1[0]), Accepted(f1[1..], m1[1..]), Accepted(f2, m2));
    }
  }

  /** Accepting one more file adds at most its own image at the end. */
  lemma AcceptedSnoc(files: seq<SourceFile>, minted: seq<Minted>, i: nat)
    requires |minted| == |files| && i < |files|
    ensures Accepted(files[..i + 1], minted[..i + 1])
      == Accepted(files[..i], minted[..i]) + AcceptedOne(files[i], minted[i])
  {
    assert files[..i + 1] == files[..i] + [files[i]];
    assert minted[..i + 1] == minted[..i] + [minted[i]];
    AcceptedAppend(files[..i], minted[..i], [files[i]], [minted[i]]);
    assert Accepted([files[i]], [minted[i]]) == AcceptedOne(files[i], minted[i]) + [] by {
      assert [files[i]][1..] == [];
    }
    Seqs.EmptyAppend(AcceptedOne(files[i], minted[i]));
  }

  function Min(a: int, b: int): int
  {
    if a <= b then a else b
  }

  /** Accepts a batch of submitted files: only the first
      `maxImages - |images|` of them are looked at, non-images among those
      are skipped (still using up their place), and the images built from
      the rest follow the existing ones in submission order. */
  method HandleFiles(images: seq<UploadedImage>, files: seq<SourceFile>, minted: seq<Minted>, maxImages: int)
    returns (updated: seq<UploadedImage>)
    requires |images| <= maxImages
    requires |minted| == |files|
    ensures var take := Min(|files|, maxImages - |images|);
      updated == images + Accepted(files[..take], minted[..take])
    ensures |updated| <= maxImages
  {
    var newImages: seq<UploadedImage> := [];
    var remaining := maxImages - |images|;
    var take := Min(|files|, remaining);
    var filesToProcess := files[..take];
    for i := 0 to |filesToProcess|
      invariant newImages == Accepted(filesToProcess[..i], minted[..i])
    {
      var file := filesToProcess[i];
      AcceptedSnoc(filesToProcess, minted[..take], i);
      assert minted[..take][..i] == minted[..i] && minted[..take][..i + 1] == minted[..i + 1];
      if !IsImageType(file.fileType) {
        continue;
      }
      DataUrlHasComma(file);
      var base64 := FileToBase64(DataUrl(file));
      newImages := newImages + [UploadedImage(minted[i].id, file, minted[i].preview, base64.value, file.fileType)];
    }
    assert filesToProcess[..|filesToProcess|] == filesToProcess;
    updated := images + newImages;
  }

  /** Removes every image with the given id and keeps the others. */
  function RemoveImage(images: seq<UploadedImage>, id: string): (updated: seq<UploadedImage>)
    ensures |updated| <= |images|
  {
    if images == [] then []
    else (if images[0].id != id then [images[0]] else []) + RemoveImage(images[1..], id)
  }

  /** Exactly the images with a different id remain. */
  lemma {:induction false} RemoveImageMembers(images: seq<UploadedImage>, id: string, img: UploadedImage)
    ensures img in RemoveImage(images, id) <==> img in images && img.id != id
  {
    if images != [] {
      RemoveImageMembers(images[1..], id, img);
      assert images == [images[0]] + images[1..];
    }
  }

  /** Removal keeps the original order: it works piece by piece. */
  lemma {:induction false} RemoveImageAppend(a: seq<UploadedImage>, b: seq<UploadedImage>, id: string)
    ensures RemoveImage(a + b, id) == RemoveImage(a, id) + RemoveImage(b, id)
  {
    if a == [] {
      Seqs.EmptyAppend(b);
    } else {
      RemoveImageAppend(a[1..], b, id);
      var head := if a[0].id != id then [a[0]] else [];
      Seqs.HeadOfAppend(a, b);
      Seqs.AppendAssoc(head, RemoveImage(a[1..], id), RemoveImage(b, id));
    }
  }

  /** Removing twice is the same as removing once. */
  lemma {:induction false} RemoveImageIdempotent(images: seq<UploadedImage>, id: string)
    ensures RemoveImage(RemoveImage(images, id), id) == RemoveImage(images, id)
  {
    if images != [] {
      RemoveImageIdempotent(images[1..], id);
      var head := if images[0].id != id then [images[0]] else [];
      RemoveImageAppend(head, RemoveImage(images[1..], id), id);
      assert RemoveImage(head, id) == head by {
        if head != [] {
          assert head[1..] == [];
        }
      }
    }
  }

  /** A list without the id is left as it is. */
  lemma {:induction false} RemoveAbsentId(images: seq<UploadedImage>, id: string)
    requires forall j :: 0 <= j < |images| ==> images[j].id != id
    ensures RemoveImage(images, id) == images
  {
    if images != [] {
      RemoveAbsentId(images[1..], id);
    }
  }

  /** `s` with position `i` taken out. */
  function Without<T>(s: seq<T>, i: nat): seq<T>
    requires i < |s|
  {
    s[..i] + s[i + 1..]
  }

  /** `r` is `s` with the element at `from` moved to position `to`: the
      same length, that element now at `to`, and all the others in their
      old relative order. */
  ghost predicate IsMove<T>(s: seq<T>, r: seq<T>, from: nat, to: nat)
  {
    from < |s| && to < |s| && |r| == |s| && r[to] == s[from] && Without(r, to) == Without(s, from)
  }

  lemma MultisetWithout<T>(s: seq<T>, i: nat)
    requires i < |s|
    ensures multiset(s) == multiset(Without(s, i)) + multiset{s[i]}
  {
    assert s == s[..i] + [s[i]] + s[i + 1..];
  }

  /** A move is a permutation. */
  lemma MoveIsPermutation<T>(s: seq<T>, r: seq<T>, from: nat, to: nat)
    requires IsMove(s, r, from, to)
    ensures multiset(r) == multiset(s)
  {
    MultisetWithout(r, to);
    MultisetWithout(s, from);
  }

  /** The move is determined by its two positions. */
  lemma MoveIsUnique<T>(s: seq<T>, r1: seq<T>, r2: seq<T>, from: nat, to: nat)
    requires IsMove(s, r1, from, to) && IsMove(s, r2, from, to)
    ensures r1 == r2
  {
    assert r1 == r1[..to] + [r1[to]] + r1[to + 1..];
    assert r2 == r2[..to] + [r2[to]] + r2[to + 1..];
    var w := Without(r1, to);
    assert r1[..to] == w[..to] && r1[to + 1..] == w[to..];
    assert r2[..to] == w[..to] && r2[to + 1..] == w[to..];
  }

  /** A move between neighbours swaps them, in either direction. */
  lemma AdjacentMoveSwaps<T>(s: seq<T>, r: seq<T>, i: nat)
    requires i + 1 < |s|
    requires IsMove(s, r, i, i + 1) || IsMove(s, r, i + 1, i)
    ensures r == s[..i] + [s[i + 1], s[i]] + s[i + 2..]
  {
    var swapped := s[..i] + [s[i + 1], s[i]] + s[i + 2..];
    assert Without(swapped, i + 1) == Without(s, i);
    assert Without(swapped, i) == Without(s, i + 1);
    if IsMove(s, r, i, i + 1) {
      MoveIsUnique(s, r, swapped, i, i + 1);
    } else {
      MoveIsUnique(s, r, swapped, i + 1, i);
    }
  }

  /** `s.splice(start, deleteCount, ...items)` within range: the array
      afterwards, and the removed elements. */
  function Splice<T>(s: seq<T>, start: nat, deleteCount: nat, items: seq<T>): (seq<T>, seq<T>)
    requires start + deleteCount <= |s|
  {
    (s[..start] + items + s[start + deleteCount..], s[start..start + deleteCount])
  }

  /** Moves the image at `fromIndex` to `toIndex` on a copy of the list.
      A target outside the list changes nothing and hands nothing back
      (None); otherwise the copy is the moved list. */
  method MoveImage(images: seq<UploadedImage>, fromIndex: int, toIndex: int)
    returns (result: Option<seq<UploadedImage>>)
    requires 0 <= fromIndex < |images|
    ensures result.None? <==> toIndex < 0 || toIndex >= |images|
    ensures result.Some? ==> IsMove(images, result.value, fromIndex, toIndex)
  {
    if toIndex < 0 || toIndex >= |images| {
      return None;
    }
    var updated := images;
    var (rest, removed) := Splice(updated, fromIndex, 1, []);
    updated := rest;
    var moved := removed[0];
    var (inserted, _) := Splice(updated, toIndex, 0, [moved]);
    updated := inserted;
    assert updated[toIndex] == images[fromIndex];
    assert Without(updated, toIndex) == rest;
    return Some(updated);
  }
}
