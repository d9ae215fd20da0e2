/**
 * The card processor: looking a card up in the catalog, and writing a
 * snapshot of a card to `cards/card_<id>.json` in the output directory.
 */
module CardProcessor {
  import opened Common
  import opened Models

  /**
   * What `Card.findById` sees: a catalog that answers (holding or lacking the
   * card), or a query that fails (a database error, or an id that cannot be
   * converted), which surfaces as a thrown error.
   */
  datatype CardDb = Reachable(cards: map<ObjectId, Card>) | QueryFailed(failure: Error)

  function NotFoundMessage(cardId: ObjectId): (m: string)
  {
    "Card not found: " + cardId
  }

  /**
   * `fetchCardInfo`: the catalog's card when it holds the id, the not-found
   * error when it does not, and any database error rethrown as it came.
   */
  function FetchCardInfo(db: CardDb, cardId: ObjectId): (r: Result<Card>)
    ensures r.Ok? <==> db.Reachable? && cardId in db.cards
    ensures r.Ok? ==> r.value == db.cards[cardId]
    ensures r.Err? && db.Reachable? ==> r.error == Error("Card not found: " + cardId)
    ensures db.QueryFailed? ==> r == Err(db.failure)
  {
    match db
    case QueryFailed(e) => Err(e)
    case Reachable(cards) =>
      if cardId in cards then Ok(cards[cardId]) else Err(Error(NotFoundMessage(cardId)))
  }

  /** A failed lookup is the not-found error only when the catalog was reachable. */
  lemma NotFoundOnlyWhenMissing(db: CardDb, cardId: ObjectId)
    requires db.QueryFailed? ==> db.failure.message != NotFoundMessage(cardId)
    ensures FetchCardInfo(db, cardId) == Err(Error(NotFoundMessage(cardId)))
        <==> db.Reachable? && cardId !in db.cards
  {
  }

  // ---------------------------------------------------------------------------
  // Card artifact files
  // ---------------------------------------------------------------------------

  /** Directory of card files, relative to the service's output directory. */
  const CardsDir: string := "cards/"

  function CardFilePath(cardId: ObjectId): (p: string)
  {
    CardsDir + "card_" + cardId + ".json"
  }

  /** Cards with distinct ids are written to distinct files. */
  lemma CardFilePathInjective(a: ObjectId, b: ObjectId)
    requires CardFilePath(a) == CardFilePath(b)
    ensures a == b
  {
    var dir := CardsDir + "card_";
    assert CardFilePath(a) == dir + (a + ".json");
    assert CardFilePath(b) == dir + (b + ".json");
    CommonPrefix(dir, a + ".json", b + ".json");
    CommonSuffix(a, b, ".json");
  }

  /**
   * The card files after writing `card`: its path now holds the card (the
   * record `JSON.stringify` renders into the file), and every other path is
   * as it was. The file is overwritten if it exists and added otherwise.
   */
  function WriteCardFile(files: map<string, Card>, card: Card): (r: map<string, Card>)
    ensures r.Keys == files.Keys + {CardFilePath(card.id)}
    ensures r[CardFilePath(card.id)] == card
    ensures forall p :: p in files && p != CardFilePath(card.id) ==> r[p] == files[p]
  {
    files[CardFilePath(card.id) := card]
  }

  /** A write adds a file only when the card had none yet; it never duplicates one. */
  lemma WriteCardFileCount(files: map<string, Card>, card: Card)
    ensures |WriteCardFile(files, card)| == if CardFilePath(card.id) in files then |files| else |files| + 1
  {
    var path := CardFilePath(card.id);
    var r := WriteCardFile(files, card);
    if path in files {
      assert r.Keys == files.Keys;
    } else {
      assert r.Keys == files.Keys + {path};
    }
  }

  /** Writing the same card id twice leaves only the latest snapshot. */
  lemma RewriteKeepsLatest(files: map<string, Card>, older: Card, newer: Card)
    requires older.id == newer.id
    ensures WriteCardFile(WriteCardFile(files, older), newer) == WriteCardFile(files, newer)
  {
  }

  /** Writes for cards with distinct ids touch distinct files, so their order does not matter. */
  lemma WritesOfDistinctCardsCommute(files: map<string, Card>, a: Card, b: Card)
    requires a.id != b.id
    ensures WriteCardFile(WriteCardFile(files, a), b) == WriteCardFile(WriteCardFile(files, b), a)
  {
    var pa, pb := CardFilePath(a.id), CardFilePath(b.id);
    if pa == pb {
      CardFilePathInjective(a.id, b.id);
      assert false;
    }
    assert WriteCardFile(WriteCardFile(files, a), b) == files[pa := a][pb := b];
    assert WriteCardFile(WriteCardFile(files, b), a) == files[pb := b][pa := a];
  }

  /** The output directory's card files, which `generateCardFile` writes into. */
  class ArtifactStore {
    var files: map<string, Card>

    constructor ()
      ensures files == map[]
    {
      files := map[];
    }

    /**
     * `generateCardFile`: writes the card's snapshot to `cards/card_<id>.json`,
     * replacing an earlier one, and returns that path.
     */
    method GenerateCardFile(card: Card) returns (filepath: string)
      modifies this
      ensures filepath == CardFilePath(card.id)
      ensures files == WriteCardFile(old(files), card)
    {
      filepath := CardFilePath(card.id);
      files := files[filepath := card];
    }
  }
}
