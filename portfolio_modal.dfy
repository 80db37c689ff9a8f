/** The "add portfolio item" dialog: the chosen image files and their preview
    URLs are two lists kept in step by the change and remove handlers, and
    submitting sends the item with the previews as its image URLs. */
module PortfolioModal {
  import opened Wrappers
  import opened JsValues
  import opened UserValidator

  const FillAllRequired := "Please fill all required fields and add at least one image"

  /** A chosen file; only its identity matters here. */
  datatype File = File(name: string, size: nat)

  /** The item handed to `onSubmit`. */
  datatype ItemPayload = ItemPayload(
    title: string,
    description: string,
    gemstoneType: string,
    cutType: string,
    imageUrls: seq<string>)

  /** `prev.filter((_, i) => i !== index)`: every element but the one at
      `index`, in order; an index outside the list removes nothing. */
  function RemoveAt<T>(s: seq<T>, index: int): (r: seq<T>)
    ensures 0 <= index < |s| ==> |r| == |s| - 1
    ensures !(0 <= index < |s|) ==> r == s
    ensures forall j :: 0 <= j < |r| && j < index ==> r[j] == s[j]
    ensures forall j :: 0 <= j < |r| && 0 <= index <= j ==> r[j] == s[j + 1]
  {
    if 0 <= index < |s| then s[..index] + s[index + 1..] else s
  }

  /** Removing an element of a list without repeats removes it from the list
      and nothing else. */
  lemma RemoveAtMembers<T>(s: seq<T>, index: int)
    requires 0 <= index < |s|
    requires forall i, j :: 0 <= i < j < |s| ==> s[i] != s[j]
    ensures s[index] !in RemoveAt(s, index)
    ensures forall x :: x in RemoveAt(s, index) <==> x in s && x != s[index]
  {
    var r := RemoveAt(s, index);
    forall x | x in s && x != s[index] ensures x in r {
      var i :| 0 <= i < |s| && s[i] == x;
      if i < index {
        assert r[i] == x;
      } else {
        assert r[i - 1] == x;
      }
    }
  }

  /** The lists are in step: one preview per image, preview `i` created for
      image `i`, no preview twice and none of them released; only created URLs
      are ever released. */
  ghost predicate InStep(images: seq<File>, urls: seq<string>, created: map<string, File>, revoked: set<string>) {
    |images| == |urls|
    && (forall i :: 0 <= i < |urls| ==> urls[i] in created && created[urls[i]] == images[i] && urls[i] !in revoked)
    && (forall i, j :: 0 <= i < j < |urls| ==> urls[i] != urls[j])
    && revoked <= created.Keys
  }

  /** The new previews, each for its own file. */
  ghost function CreatedFor(urls: seq<string>, files: seq<File>): (m: map<string, File>)
    requires |urls| == |files|
    requires forall i, j :: 0 <= i < j < |urls| ==> urls[i] != urls[j]
    ensures m.Keys == set i | 0 <= i < |urls| :: urls[i]
    ensures forall i :: 0 <= i < |urls| ==> m[urls[i]] == files[i]
  {
    var m := map i | 0 <= i < |urls| :: urls[i] := files[i];
    assert forall i :: 0 <= i < |urls| ==> urls[i] in m && m[urls[i]] == files[i] by {
      forall i | 0 <= i < |urls| ensures urls[i] in m && m[urls[i]] == files[i] {
        assert urls[i] in m;
      }
    }
    m
  }

  /** Appending new files with new, distinct previews keeps the lists in step. */
  lemma AppendInStep(images: seq<File>, urls: seq<string>, created: map<string, File>, revoked: set<string>,
                     files: seq<File>, added: seq<string>)
    requires InStep(images, urls, created, revoked)
    requires |added| == |files|
    requires forall i :: 0 <= i < |added| ==> added[i] !in created
    requires forall i, j :: 0 <= i < j < |added| ==> added[i] != added[j]
    ensures InStep(images + files, urls + added, created + CreatedFor(added, files), revoked)
  {
    var created' := created + CreatedFor(added, files);
    var images', urls' := images + files, urls + added;
    forall i | 0 <= i < |urls'|
      ensures urls'[i] in created' && created'[urls'[i]] == images'[i] && urls'[i] !in revoked
    {
      if i < |urls| {
        assert urls'[i] == urls[i] && images'[i] == images[i];
        assert urls[i] !in CreatedFor(added, files);
      } else {
        assert urls'[i] == added[i - |urls|] && images'[i] == files[i - |urls|];
      }
    }
    forall i, j | 0 <= i < j < |urls'| ensures urls'[i] != urls'[j] {
      if j >= |urls| && i < |urls| {
        assert urls'[i] == urls[i] && urls'[j] == added[j - |urls|];
      }
    }
  }

  /** The dialog's state. `createdFor` records, for every preview URL ever
      created, the file it was created from, and `revoked` the URLs already
      released; both stand for the browser's object-URL table. */
  class AddPortfolioItemModal {
    var title: string
    var description: string
    var gemstoneType: string
    var cutType: string
    var images: seq<File>
    var imagePreviewUrls: seq<string>
    var error: Option<string>
    ghost var createdFor: map<string, File>
    ghost var revoked: set<string>

    /** The two lists have one entry per image, preview `i` shows image `i`,
        the previews are distinct and none of them has been released. */
    ghost predicate Valid()
      reads this
    {
      InStep(images, imagePreviewUrls, createdFor, revoked)
    }

    constructor ()
      ensures Valid()
      ensures title == "" && description == "" && gemstoneType == "" && cutType == ""
      ensures images == [] && imagePreviewUrls == [] && error == None
    {
      title, description, gemstoneType, cutType := "", "", "", "";
      images, imagePreviewUrls, error := [], [], None;
      createdFor, revoked := map[], {};
    }

    /** `handleImageChange`: without a file list nothing changes; otherwise the
        files are appended and, after the existing previews, one new preview
        per file in the same order. `urls` are the values `URL.createObjectURL`
        returns for the files, each new and distinct. */
    method HandleImageChange(files: Option<seq<File>>, urls: seq<string>)
      requires Valid()
      requires files.Some? ==> |urls| == |files.value|
      requires forall i :: 0 <= i < |urls| ==> urls[i] !in createdFor
      requires forall i, j :: 0 <= i < j < |urls| ==> urls[i] != urls[j]
      modifies this
      ensures Valid()
      ensures title == old(title) && description == old(description)
      ensures gemstoneType == old(gemstoneType) && cutType == old(cutType) && error == old(error)
      ensures revoked == old(revoked)
      ensures files.None? ==> images == old(images) && imagePreviewUrls == old(imagePreviewUrls)
      ensures files.Some? ==>
        images == old(images) + files.value && imagePreviewUrls == old(imagePreviewUrls) + urls
    {
      if files.Some? {
        AppendInStep(images, imagePreviewUrls, createdFor, revoked, files.value, urls);
        createdFor := createdFor + CreatedFor(urls, files.value);
        images := images + files.value;
        imagePreviewUrls := imagePreviewUrls + urls;
      }
    }

    /** `removeImage(index)`: the preview at `index` is released and the entry
        at `index` leaves both lists; the rest keep their order. */
    method RemoveImage(index: int)
      requires Valid()
      modifies this
      ensures Valid()
      ensures images == RemoveAt(old(images), index)
      ensures imagePreviewUrls == RemoveAt(old(imagePreviewUrls), index)
      ensures 0 <= index < |old(imagePreviewUrls)| ==> revoked == old(revoked) + {old(imagePreviewUrls)[index]}
      ensures !(0 <= index < |old(imagePreviewUrls)|) ==> revoked == old(revoked)
      ensures createdFor == old(createdFor)
      ensures title == old(title) && description == old(description)
      ensures gemstoneType == old(gemstoneType) && cutType == old(cutType) && error == old(error)
    {
      if 0 <= index < |imagePreviewUrls| {
        RemoveAtMembers(imagePreviewUrls, index);
        revoked := revoked + {imagePreviewUrls[index]};
      }
      images := RemoveAt(images, index);
      imagePreviewUrls := RemoveAt(imagePreviewUrls, index);
    }

    /** `handleSubmit`: a missing title, gemstone type or cut type, or no image,
        sets the error and sends nothing; otherwise the error is cleared and the
        item is sent with the previews as its image URLs. */
    method HandleSubmit() returns (submitted: Option<ItemPayload>)
      requires Valid()
      modifies this
      ensures Valid()
      ensures images == old(images) && imagePreviewUrls == old(imagePreviewUrls)
      ensures title == old(title) && description == old(description)
      ensures gemstoneType == old(gemstoneType) && cutType == old(cutType)
      ensures createdFor == old(createdFor) && revoked == old(revoked)
      ensures submitted.None? <==> title == "" || gemstoneType == "" || cutType == "" || |images| == 0
      ensures submitted.None? ==> error == Some(FillAllRequired)
      ensures submitted.Some? ==>
        error == None && submitted.value == ItemPayload(title, description, gemstoneType, cutType, imagePreviewUrls)
    {
      if title == "" || gemstoneType == "" || cutType == "" || |images| == 0 {
        error := Some(FillAllRequired);
        return None;
      }
      error := None;
      submitted := Some(ItemPayload(title, description, gemstoneType, cutType, imagePreviewUrls));
    }
  }

  /** The body the dialog's item makes on the server: the five fields, nothing else. */
  function AsPortfolioBody(p: ItemPayload): PortfolioItemBody {
    PortfolioItemBody(Defined(p.title), Defined(p.description), Defined(p.gemstoneType),
                      Defined(p.cutType), Defined(p.imageUrls), {})
  }

  /** An item the dialog sends passes the server's check for a new portfolio item. */
  lemma SubmittedItemAccepted(p: ItemPayload)
    requires p.title != "" && p.gemstoneType != "" && p.cutType != "" && |p.imageUrls| > 0
    ensures ValidatePortfolioItem("POST", AsPortfolioBody(p)).None?
  {
  }
}
