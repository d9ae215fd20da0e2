/**
 * The fulfillment bundle built by the Drive service: a zip holding the
 * shipping label and every print sheet under a per-order directory, and the
 * name the zip is uploaded under. Only the list of entries is modelled, not
 * the compression, the streams or the Drive client.
 */
module Drive {
  import opened Common

  /** Entry name of the shipping label inside the bundle. */
  function LabelEntryName(orderId: string): (name: string)
  {
    "shipping_label_" + orderId + ".json"
  }

  /** The directory inside the bundle that holds the print sheets. */
  function SheetDir(orderId: string): (dir: string)
  {
    "print-sheets-" + orderId + "/"
  }

  /** Entry name of the print sheet with 1-based position `k`. */
  function SheetEntryName(orderId: string, k: nat): (name: string)
  {
    SheetDir(orderId) + "print_sheet_" + DecimalString(k) + "_" + orderId + ".json"
  }

  /** The sheet names of one bundle are distinct for distinct positions. */
  lemma SheetEntryNamesDistinct(orderId: string, j: nat, k: nat)
    requires j != k
    ensures SheetEntryName(orderId, j) != SheetEntryName(orderId, k)
  {
    if SheetEntryName(orderId, j) == SheetEntryName(orderId, k) {
      var p := SheetDir(orderId) + "print_sheet_";
      var dj, dk := DecimalString(j), DecimalString(k);
      assert SheetEntryName(orderId, j) == p + (dj + ['_'] + (orderId + ".json"));
      assert SheetEntryName(orderId, k) == p + (dk + ['_'] + (orderId + ".json"));
      CommonPrefix(p, dj + ['_'] + (orderId + ".json"), dk + ['_'] + (orderId + ".json"));
      DigitRunSplit(dj, dk, '_', orderId + ".json", orderId + ".json");
      DecimalStringInjective(j, k);
      assert false;
    }
  }

  /** Every sheet lies in the sheet directory. */
  lemma SheetInSheetDir(orderId: string, k: nat)
    ensures HasPrefix(SheetEntryName(orderId, k), SheetDir(orderId))
  {
    var name := SheetEntryName(orderId, k);
    var rest := "print_sheet_" + DecimalString(k) + "_" + orderId + ".json";
    assert name == SheetDir(orderId) + rest;
    assert name[..|SheetDir(orderId)|] == SheetDir(orderId);
  }

  /** The label lies outside the sheet directory. */
  lemma LabelOutsideSheetDir(orderId: string)
    ensures !HasPrefix(LabelEntryName(orderId), SheetDir(orderId))
  {
    assert LabelEntryName(orderId)[0] == 's' != 'p' == SheetDir(orderId)[0];
  }

  /** The label's name is none of the sheet names. */
  lemma LabelIsNotASheet(orderId: string, k: nat)
    ensures LabelEntryName(orderId) != SheetEntryName(orderId, k)
  {
    assert SheetEntryName(orderId, k)[0] == 'p';
    assert LabelEntryName(orderId)[0] == 's';
  }

  /** File name of the bundle, both on local disk and on Drive. */
  function ArchiveFileName(orderId: string): (name: string)
  {
    orderId + ".zip"
  }

  /** Where `createOrderZip` writes the bundle, relative to the output directory. */
  function ArchivePath(orderId: string): (p: string)
  {
    TempDir + ArchiveFileName(orderId)
  }

  /** Distinct orders get distinct bundles. */
  lemma ArchiveFileNameInjective(a: string, b: string)
    requires ArchiveFileName(a) == ArchiveFileName(b)
    ensures a == b
  {
    CommonSuffix(a, b, ".zip");
  }

  /**
   * `createOrderZip`: the path of the local bundle, and the entries added to
   * it in order: the label first, then each sheet under its 1-based position.
   */
  method CreateOrderZip(orderId: string, files: OrderFiles) returns (zipPath: string, entries: seq<ArchiveEntry>)
    ensures zipPath == ArchivePath(orderId)
    ensures |entries| == 1 + |files.printSheets|
    ensures entries[0] == ArchiveEntry(files.shippingLabel, LabelEntryName(orderId))
    ensures forall k :: 1 <= k < |entries| ==>
              entries[k] == ArchiveEntry(files.printSheets[k - 1], SheetEntryName(orderId, k))
    ensures forall k :: 1 <= k < |entries| ==> HasPrefix(entries[k].name, SheetDir(orderId))
    ensures !HasPrefix(entries[0].name, SheetDir(orderId))
    ensures forall j, k :: 0 <= j < k < |entries| ==> entries[j].name != entries[k].name
  {
    zipPath := TempDir + ArchiveFileName(orderId);
    entries := [ArchiveEntry(files.shippingLabel, LabelEntryName(orderId))];
    var index := 0;
    while index < |files.printSheets|
      invariant 0 <= index <= |files.printSheets|
      invariant |entries| == 1 + index
      invariant entries[0] == ArchiveEntry(files.shippingLabel, LabelEntryName(orderId))
      invariant forall k :: 1 <= k < |entries| ==>
                  entries[k] == ArchiveEntry(files.printSheets[k - 1], SheetEntryName(orderId, k))
    {
      entries := entries + [ArchiveEntry(files.printSheets[index], SheetEntryName(orderId, index + 1))];
      index := index + 1;
    }
    LabelOutsideSheetDir(orderId);
    forall k | 1 <= k < |entries| ensures HasPrefix(entries[k].name, SheetDir(orderId)) {
      SheetInSheetDir(orderId, k);
    }
    forall j, k | 0 <= j < k < |entries| ensures entries[j].name != entries[k].name {
      if j == 0 {
        LabelIsNotASheet(orderId, k);
      } else {
        SheetEntryNamesDistinct(orderId, j, k);
      }
    }
  }

  /** The metadata of the Drive upload: the file's name and its parent folder. */
  datatype FileMetadata = FileMetadata(name: string, parents: seq<Option<string>>)

  /**
   * The metadata `uploadToGoogleDrive` sends: the bundle goes up under the
   * very name it has on disk, into the configured folder (which may be unset).
   */
  function UploadMetadata(orderId: string, folderId: Option<string>): (m: FileMetadata)
    ensures TempDir + m.name == ArchivePath(orderId)
    ensures m.parents == [folderId]
  {
    FileMetadata(ArchiveFileName(orderId), [folderId])
  }

}
