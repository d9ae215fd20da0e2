/**
 * The email service: the zip of print sheets it can attach, and the
 * notification it composes once an order is processed. The mail transport
 * and the sending itself are not modelled; the configuration read from the
 * environment and the processing time are parameters.
 */
module Email {
  import opened Common
  import Drive

  /** Entry name of the print sheet with 1-based position `k` in the email zip. */
  function EmailSheetName(k: nat): (name: string)
  {
    "print_sheet_" + DecimalString(k) + ".json"
  }

  /** Distinct positions give distinct entry names. */
  lemma EmailSheetNamesDistinct(j: nat, k: nat)
    requires j != k
    ensures EmailSheetName(j) != EmailSheetName(k)
  {
    if EmailSheetName(j) == EmailSheetName(k) {
      var dj, dk := DecimalString(j), DecimalString(k);
      assert EmailSheetName(j) == "print_sheet_" + (dj + ".json");
      assert EmailSheetName(k) == "print_sheet_" + (dk + ".json");
      CommonPrefix("print_sheet_", dj + ".json", dk + ".json");
      CommonSuffix(dj, dk, ".json");
      DecimalStringInjective(j, k);
      assert false;
    }
  }

  /** Where `createZipFile` writes the zip, relative to the output directory. */
  function EmailArchivePath(orderId: string): (p: string)
    ensures HasPrefix(p, TempDir)
    ensures p != Drive.ArchivePath(orderId)
  {
    TempDir + "print_sheets_" + orderId + ".zip"
  }

  /**
   * `createZipFile`: the path of the zip and the entries added to it, one per
   * print sheet in input order, named by 1-based position. The shipping label
   * is not part of it.
   */
  method CreateZipFile(files: OrderFiles, orderId: string) returns (outputPath: string, entries: seq<ArchiveEntry>)
    ensures outputPath == EmailArchivePath(orderId)
    ensures |entries| == |files.printSheets|
    ensures forall k :: 0 <= k < |entries| ==>
              entries[k] == ArchiveEntry(files.printSheets[k], EmailSheetName(k + 1))
    ensures forall k :: 0 <= k < |entries| ==> HasPrefix(entries[k].name, "print_sheet_")
    ensures forall j, k :: 0 <= j < k < |entries| ==> entries[j].name != entries[k].name
  {
    outputPath := TempDir + "print_sheets_" + orderId + ".zip";
    entries := [];
    var index := 0;
    while index < |files.printSheets|
      invariant 0 <= index <= |files.printSheets|
      invariant |entries| == index
      invariant forall k :: 0 <= k < |entries| ==>
                  entries[k] == ArchiveEntry(files.printSheets[k], EmailSheetName(k + 1))
    {
      entries := entries + [ArchiveEntry(files.printSheets[index], EmailSheetName(index + 1))];
      index := index + 1;
    }
    forall k | 0 <= k < |entries| ensures HasPrefix(entries[k].name, "print_sheet_") {
      assert entries[k].name == "print_sheet_" + (DecimalString(k + 1) + ".json");
    }
    forall j, k | 0 <= j < k < |entries| ensures entries[j].name != entries[k].name {
      EmailSheetNamesDistinct(j + 1, k + 1);
    }
  }

  // ---------------------------------------------------------------------------
  // Processing notification
  // ---------------------------------------------------------------------------

  /**
   * The variables the notification reads from the environment; any of them
   * may be unset. The password only configures the transport, which is not
   * modelled.
   */
  datatype EmailConfig = EmailConfig(emailUser: Option<string>, adminEmail: Option<string>)

  /** The order summary the notification reports. */
  datatype OrderDetails = OrderDetails(orderId: string, trackingNumber: string, totalCardsProcessed: nat)

  datatype MailOptions = MailOptions(from: Option<string>, to: Option<string>, subject: string, text: string)

  function Subject(orderId: string): (subject: string)
  {
    "Order " + orderId + " Processed"
  }

  /**
   * The plain-text body, line by line as the template lays it out; the
   * concatenation is grouped from the right, which leaves the text unchanged.
   */
  function NotificationText(details: OrderDetails, driveLink: string, processingTime: string): (text: string)
  {
    "\nOrder Processing Complete\n\nOrder ID: " + (details.orderId
    + ("\nTracking Number: " + (details.trackingNumber
    + ("\nTotal Cards Processed: " + (DecimalString(details.totalCardsProcessed)
    + ("\n\nFiles have been uploaded to Google Drive:\n" + (driveLink
    + ("\n\nProcessing Time: " + processingTime + "\n            "))))))))
  }

  /**
   * The `mailOptions` of `sendProcessingNotification`: from the configured
   * sender to the configured administrator, with a subject that is the order
   * id between "Order " and " Processed".
   */
  function ProcessingNotification(
    config: EmailConfig, details: OrderDetails, driveLink: string, processingTime: string): (m: MailOptions)
    ensures m.from == config.emailUser
    ensures m.to == config.adminEmail
    ensures HasPrefix(m.subject, "Order ") && HasSuffix(m.subject, " Processed")
    ensures |m.subject| == |details.orderId| + 16
    ensures m.subject[6..|m.subject| - 10] == details.orderId
    ensures m.text == NotificationText(details, driveLink, processingTime)
  {
    var subject := Subject(details.orderId);
    assert subject[6..|subject| - 10] == details.orderId;
    MailOptions(config.emailUser, config.adminEmail, subject, NotificationText(details, driveLink, processingTime))
  }

  /**
   * The body shows the order id, the tracking number, the number of cards
   * processed and the Drive link, each in full and in that order; the lemma
   * returns where each of them begins.
   */
  lemma NotificationFieldsInOrder(details: OrderDetails, driveLink: string, processingTime: string)
    returns (a: nat, b: nat, c: nat, d: nat)
    ensures var text := NotificationText(details, driveLink, processingTime);
            var count := DecimalString(details.totalCardsProcessed);
            && a + |details.orderId| < b
            && b + |details.trackingNumber| < c
            && c + |count| < d
            && OccursAt(text, details.orderId, a)
            && OccursAt(text, details.trackingNumber, b)
            && OccursAt(text, count, c)
            && OccursAt(text, driveLink, d)
  {
    var text := NotificationText(details, driveLink, processingTime);
    var count := DecimalString(details.totalCardsProcessed);
    var h1, h2, h3, h4 := "\nOrder Processing Complete\n\nOrder ID: ", "\nTracking Number: ",
                          "\nTotal Cards Processed: ", "\n\nFiles have been uploaded to Google Drive:\n";
    var tail := "\n\nProcessing Time: " + processingTime + "\n            ";
    a, b, c, d := FieldOffsets(h1, details.orderId, h2, details.trackingNumber, h3, count, h4, driveLink, tail);
    assert text == h1 + (details.orderId + (h2 + (details.trackingNumber + (h3 + (count + (h4 + (driveLink + tail)))))));
    assert |h2| > 0 && |h3| > 0 && |h4| > 0;
    assert OccursAt(text, details.orderId, a) && OccursAt(text, details.trackingNumber, b)
        && OccursAt(text, count, c) && OccursAt(text, driveLink, d);
  }

  /** Where the four fields of a text laid out as h1 x1 h2 x2 h3 x3 h4 x4 tail begin. */
  lemma FieldOffsets(
    h1: string, x1: string, h2: string, x2: string, h3: string, x3: string, h4: string, x4: string, tail: string)
    returns (a: nat, b: nat, c: nat, d: nat)
    ensures var text := h1 + (x1 + (h2 + (x2 + (h3 + (x3 + (h4 + (x4 + tail)))))));
            && a == |h1| && b == a + |x1| + |h2| && c == b + |x2| + |h3| && d == c + |x3| + |h4|
            && OccursAt(text, x1, a) && OccursAt(text, x2, b)
            && OccursAt(text, x3, c) && OccursAt(text, x4, d)
  {
    var r4 := x4 + tail;
    var s4 := h4 + r4;
    var r3 := x3 + s4;
    var s3 := h3 + r3;
    var r2 := x2 + s3;
    var s2 := h2 + r2;
    var r1 := x1 + s2;
    // the fourth field, shifted out to its place in the text
    OccursAtStart(x4, tail);
    OccursShift(h4, r4, x4, 0);
    OccursShift(x3, s4, x4, |h4|);
    OccursShift(h3, r3, x4, |x3| + |h4|);
    OccursShift(x2, s3, x4, |h3| + |x3| + |h4|);
    OccursShift(h2, r2, x4, |x2| + |h3| + |x3| + |h4|);
    OccursShift(x1, s2, x4, |h2| + |x2| + |h3| + |x3| + |h4|);
    OccursShift(h1, r1, x4, |x1| + |h2| + |x2| + |h3| + |x3| + |h4|);
    // the third
    OccursAtStart(x3, s4);
    OccursShift(h3, r3, x3, 0);
    OccursShift(x2, s3, x3, |h3|);
    OccursShift(h2, r2, x3, |x2| + |h3|);
    OccursShift(x1, s2, x3, |h2| + |x2| + |h3|);
    OccursShift(h1, r1, x3, |x1| + |h2| + |x2| + |h3|);
    // the second
    OccursAtStart(x2, s3);
    OccursShift(h2, r2, x2, 0);
    OccursShift(x1, s2, x2, |h2|);
    OccursShift(h1, r1, x2, |x1| + |h2|);
    // the first
    OccursAtStart(x1, s2);
    OccursShift(h1, r1, x1, 0);
    a, b, c, d := |h1|, |h1| + |x1| + |h2|, |h1| + |x1| + |h2| + |x2| + |h3|,
                  |h1| + |x1| + |h2| + |x2| + |h3| + |x3| + |h4|;
  }
}
