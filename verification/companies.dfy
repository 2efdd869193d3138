/**
 * Listing and creating companies. A company is created in two phases
 * against two independent stores: its logo is uploaded to the object
 * store, then a row referencing the logo's public address is inserted
 * into the companies table; when the insert fails the uploaded logo is
 * removed again as compensation.
 *
 * Every remote call is modelled by the state change it makes on an
 * in-memory store and by a `Reply` given as input, so that each of the
 * exits can be reached. The stores also keep the list of calls issued to
 * them, which is how the order of the phases is stated.
 */
module Companies {
  import opened Wrappers
  import opened Naming

  /** A logo file chosen in the form: its bytes and its declared content type. */
  datatype Logo = Logo(bytes: seq<bv8>, contentType: string)

  /** The creation form: the company name and the logo, which may be missing. */
  datatype FormData = FormData(name: string, logo: Option<Logo>)

  /** A row of the companies table, with the columns this code writes. */
  datatype Row = Row(name: string, logoUrl: string)

  /** The address of a stored object: its bucket and its key. */
  datatype ObjectId = ObjectId(bucket: string, key: string)

  /** The answer of a remote call: success, or an error carrying a message. */
  datatype Reply = Succeeds | FailsWith(message: string)

  /** A call issued to one of the stores. */
  datatype Call =
    | Upload(target: ObjectId, logo: Logo)
    | Insert(rows: seq<Row>)
    | Remove(bucket: string, keys: seq<string>)

  /** How a creation attempt ends: it returns the inserted rows, or it throws an error with a message. */
  datatype Outcome = Returned(rows: seq<Row>) | Threw(message: string)

  /** The contents of both stores and the calls they have received. */
  datatype Stores = Stores(assets: map<ObjectId, Logo>, companies: seq<Row>, calls: seq<Call>)

  /** The stores after a creation attempt, and how the attempt ended. */
  datatype Attempt = Attempt(after: Stores, outcome: Outcome)

  /** The message thrown when the form carries no logo. */
  const MissingLogo: string := "No logo file provided"

  /** The message thrown when the upload fails: the store's message, marked as a storage error. */
  function StorageError(message: string): (r: string)
    ensures |r| == |"Storage Error: "| + |message|
    ensures r[|r| - |message|..] == message
  {
    "Storage Error: " + message
  }

  /** The message thrown when the insert fails: the store's message, marked as a database error. */
  function DatabaseError(message: string): (r: string)
    ensures |r| == |"Database Error: "| + |message|
    ensures r[|r| - |message|..] == message
  {
    "Database Error: " + message
  }

  /** The object a company's logo is uploaded to. */
  function LogoObject(name: string, random: nat): (id: ObjectId)
    requires random < RandomBound
    ensures id.bucket == Bucket
    ensures ParseKey(id.key) == Some(KeyParts(random, Sanitize(name)))
  {
    ObjectKeyRoundTrip(name, random);
    ObjectId(Bucket, ObjectKey(name, random))
  }

  /**
   * The messages of the three error exits differ from one another whatever
   * the underlying store messages are, so a caller can tell a missing logo,
   * a failed upload and a failed insert apart.
   */
  lemma ErrorMessagesDistinct(m1: string, m2: string)
    ensures MissingLogo != StorageError(m1)
    ensures MissingLogo != DatabaseError(m2)
    ensures StorageError(m1) != DatabaseError(m2)
  {
    assert MissingLogo[0] == 'N';
    assert StorageError(m1)[0] == 'S';
    assert DatabaseError(m2)[0] == 'D';
  }

  // ---------------------------------------------------------------------
  // Listing
  // ---------------------------------------------------------------------

  /** The answer of a `select` on the companies table: the rows, or an error. */
  datatype Selection = Selection(data: seq<Row>, error: Option<string>)

  /** The listing: no rows at all (null) when the read reports an error, otherwise the rows read. */
  function GetCompanies(result: Selection): (r: Option<seq<Row>>)
    ensures r.None? <==> result.error.Some?
    ensures r.Some? ==> r.value == result.data
  {
    if result.error.Some? then None else Some(result.data)
  }

  /** A failed read and an empty table give different listings. */
  lemma FailedListingIsNotEmptyListing(data: seq<Row>, error: string)
    ensures GetCompanies(Selection(data, Some(error))) != GetCompanies(Selection([], None))
  {
  }

  // ---------------------------------------------------------------------
  // Creation, as a function of the stores and the replies
  // ---------------------------------------------------------------------

  /**
   * One creation attempt. `random` stands for the disambiguator drawn from
   * `[0, 90000)`; `upload`, `insert` and `remove` are the replies the stores
   * give to the three calls the attempt may issue.
   */
  function Create(s: Stores, baseUrl: string, form: FormData, random: nat,
                  upload: Reply, insert: Reply, remove: Reply): (r: Attempt)
    requires random < RandomBound
    // Missing logo: nothing is called and nothing changes.
    ensures form.logo.None? ==> r == Attempt(s, Threw(MissingLogo))
    // Failed upload: only the upload was called; neither store changed.
    ensures form.logo.Some? && upload.FailsWith? ==>
      && r.outcome == Threw(StorageError(upload.message))
      && r.after.assets == s.assets
      && r.after.companies == s.companies
      && r.after.calls == s.calls + [Upload(LogoObject(form.name, random), form.logo.value)]
    // The attempt returns exactly when the logo is present and both phases succeed.
    ensures r.outcome.Returned? <==> form.logo.Some? && upload.Succeeds? && insert.Succeeds?
    // Success: upload then insert, one row added, the logo kept, no removal.
    ensures r.outcome.Returned? ==>
      var id := LogoObject(form.name, random);
      var row := Row(form.name, PublicUrl(baseUrl, id.key));
      && r.outcome.rows == [row]
      && r.after.companies == s.companies + [row]
      && r.after.assets == s.assets[id := form.logo.value]
      && r.after.calls == s.calls + [Upload(id, form.logo.value), Insert([row])]
    // Failed insert: the same object is removed once, and the insert's message is thrown
    // whatever the removal answered.
    ensures form.logo.Some? && upload.Succeeds? && insert.FailsWith? ==>
      var id := LogoObject(form.name, random);
      var row := Row(form.name, PublicUrl(baseUrl, id.key));
      && r.outcome == Threw(DatabaseError(insert.message))
      && r.after.companies == s.companies
      && r.after.calls == s.calls + [Upload(id, form.logo.value), Insert([row]), Remove(Bucket, [id.key])]
      && r.after.assets == (if remove.Succeeds? then s.assets - {id} else s.assets[id := form.logo.value])
  {
    if form.logo.None? then Attempt(s, Threw(MissingLogo))
    else
      var logo := form.logo.value;
      var id := LogoObject(form.name, random);
      var uploaded := s.(calls := s.calls + [Upload(id, logo)]);
      if upload.FailsWith? then Attempt(uploaded, Threw(StorageError(upload.message)))
      else
        var stored := uploaded.(assets := uploaded.assets[id := logo]);
        var row := Row(form.name, PublicUrl(baseUrl, id.key));
        var inserting := stored.(calls := stored.calls + [Insert([row])]);
        if insert.Succeeds? then
          Attempt(inserting.(companies := inserting.companies + [row]), Returned([row]))
        else
          var removing := inserting.(calls := inserting.calls + [Remove(Bucket, [id.key])]);
          var cleaned := if remove.Succeeds? then removing.(assets := removing.assets - {id}) else removing;
          Attempt(cleaned, Threw(DatabaseError(insert.message)))
  }

  /** The row a successful attempt inserts names the company verbatim and ends with the uploaded key. */
  lemma CreatedRowReferencesUpload(s: Stores, baseUrl: string, form: FormData, random: nat,
                                   upload: Reply, insert: Reply, remove: Reply)
    requires random < RandomBound
    requires Create(s, baseUrl, form, random, upload, insert, remove).outcome.Returned?
    ensures var r := Create(s, baseUrl, form, random, upload, insert, remove);
      var key := ObjectKey(form.name, random);
      && |r.outcome.rows| == 1
      && r.outcome.rows[0].name == form.name
      && KeyOfUrl(baseUrl, r.outcome.rows[0].logoUrl) == Some(key)
      && |key| <= |r.outcome.rows[0].logoUrl|
      && r.outcome.rows[0].logoUrl[|r.outcome.rows[0].logoUrl| - |key|..] == key
      && ObjectId(Bucket, key) in r.after.assets
  {
  }

  /**
   * When the insert fails and the removal succeeds, the object store is back
   * to what it was before the attempt, provided the key was not in use.
   */
  lemma CompensationRestoresAssets(s: Stores, baseUrl: string, form: FormData, random: nat,
                                   upload: Reply, insert: Reply, remove: Reply)
    requires random < RandomBound
    requires insert.FailsWith? && remove.Succeeds?
    requires LogoObject(form.name, random) !in s.assets
    ensures Create(s, baseUrl, form, random, upload, insert, remove).after.assets == s.assets
  {
  }

  // ---------------------------------------------------------------------
  // Consistency between the two stores
  // ---------------------------------------------------------------------

  /** The objects of the logo bucket. */
  function LogoObjects(assets: map<ObjectId, Logo>): set<ObjectId> {
    set id | id in assets && id.bucket == Bucket
  }

  /** The logo objects the rows' addresses point to. */
  function Referenced(baseUrl: string, rows: seq<Row>): set<ObjectId> {
    if rows == [] then {}
    else
      var last := rows[|rows| - 1];
      Referenced(baseUrl, rows[..|rows| - 1])
        + (match KeyOfUrl(baseUrl, last.logoUrl)
           case Some(key) => {ObjectId(Bucket, key)}
           case None => {})
  }

  /** Every logo object is referenced by a row, and every row's logo exists. */
  predicate Consistent(baseUrl: string, s: Stores) {
    LogoObjects(s.assets) == Referenced(baseUrl, s.companies)
  }

  /**
   * An attempt on consistent stores leaves them consistent unless the
   * compensating removal fails, provided the key it derives is not in use.
   */
  lemma CreatePreservesConsistency(s: Stores, baseUrl: string, form: FormData, random: nat,
                                   upload: Reply, insert: Reply, remove: Reply)
    requires random < RandomBound
    requires Consistent(baseUrl, s)
    requires LogoObject(form.name, random) !in s.assets
    requires insert.FailsWith? ==> remove.Succeeds?
    ensures Consistent(baseUrl, Create(s, baseUrl, form, random, upload, insert, remove).after)
  {
  }

  /**
   * When the insert fails and the removal fails too, the uploaded logo is
   * left behind in the bucket with no row referencing it.
   */
  lemma FailedCompensationOrphansLogo(s: Stores, baseUrl: string, form: FormData, random: nat,
                                      upload: Reply, insert: Reply, remove: Reply)
    requires random < RandomBound
    requires Consistent(baseUrl, s)
    requires LogoObject(form.name, random) !in s.assets
    requires form.logo.Some? && upload.Succeeds? && insert.FailsWith? && remove.FailsWith?
    ensures var after := Create(s, baseUrl, form, random, upload, insert, remove).after;
      var id := LogoObject(form.name, random);
      && id in LogoObjects(after.assets)
      && id !in Referenced(baseUrl, after.companies)
      && !Consistent(baseUrl, after)
  {
  }

  /**
   * When the derived key is already the logo of an existing company and the
   * store accepts the upload, a failed insert followed by a successful
   * removal deletes that other company's logo.
   */
  lemma CompensationAfterCollisionDeletesLogo(s: Stores, baseUrl: string, form: FormData, random: nat,
                                              upload: Reply, insert: Reply, remove: Reply)
    requires random < RandomBound
    requires Consistent(baseUrl, s)
    requires LogoObject(form.name, random) in s.assets
    requires form.logo.Some? && upload.Succeeds? && insert.FailsWith? && remove.Succeeds?
    ensures var after := Create(s, baseUrl, form, random, upload, insert, remove).after;
      var id := LogoObject(form.name, random);
      && id !in after.assets
      && id in Referenced(baseUrl, after.companies)
      && !Consistent(baseUrl, after)
  {
  }

  // ---------------------------------------------------------------------
  // The stores as mutable state, and the creation protocol over them
  // ---------------------------------------------------------------------

  /**
   * The object store and the companies table, together with the calls
   * they have received, at the store address `baseUrl`.
   */
  class Backend {
    const baseUrl: string
    var assets: map<ObjectId, Logo>
    var companies: seq<Row>
    var calls: seq<Call>

    function State(): Stores
      reads this
    {
      Stores(assets, companies, calls)
    }

    constructor (baseUrl: string, assets: map<ObjectId, Logo>, companies: seq<Row>)
      ensures this.baseUrl == baseUrl
      ensures State() == Stores(assets, companies, [])
    {
      this.baseUrl := baseUrl;
      this.assets := assets;
      this.companies := companies;
      this.calls := [];
    }

    /** Uploads `logo` to `target`; on success the object store holds it there. */
    method UploadObject(target: ObjectId, logo: Logo, reply: Reply) returns (error: Option<string>)
      modifies this
      ensures calls == old(calls) + [Upload(target, logo)]
      ensures companies == old(companies)
      ensures reply.Succeeds? ==> error == None && assets == old(assets)[target := logo]
      ensures reply.FailsWith? ==> error == Some(reply.message) && assets == old(assets)
    {
      calls := calls + [Upload(target, logo)];
      if reply.Succeeds? {
        assets := assets[target := logo];
        error := None;
      } else {
        error := Some(reply.message);
      }
    }

    /** Inserts `rows` into the companies table and answers with the rows inserted. */
    method InsertRows(rows: seq<Row>, reply: Reply) returns (data: seq<Row>, error: Option<string>)
      modifies this
      ensures calls == old(calls) + [Insert(rows)]
      ensures assets == old(assets)
      ensures reply.Succeeds? ==> error == None && data == rows && companies == old(companies) + rows
      ensures reply.FailsWith? ==> error == Some(reply.message) && data == [] && companies == old(companies)
    {
      calls := calls + [Insert(rows)];
      if reply.Succeeds? {
        companies := companies + rows;
        data, error := rows, None;
      } else {
        data, error := [], Some(reply.message);
      }
    }

    /** Removes the objects `keys` of `bucket`; on success none of them is stored any more. */
    method RemoveObjects(bucket: string, keys: seq<string>, reply: Reply) returns (error: Option<string>)
      modifies this
      ensures calls == old(calls) + [Remove(bucket, keys)]
      ensures companies == old(companies)
      ensures reply.Succeeds? ==>
        error == None && assets == old(assets) - (set k | k in keys :: ObjectId(bucket, k))
      ensures reply.FailsWith? ==> error == Some(reply.message) && assets == old(assets)
    {
      calls := calls + [Remove(bucket, keys)];
      if reply.Succeeds? {
        assets := assets - (set k | k in keys :: ObjectId(bucket, k));
        error := None;
      } else {
        error := Some(reply.message);
      }
    }

    /**
     * Creates a company: validates the form, uploads the logo under a key
     * derived from the name and `random`, inserts the row referencing the
     * logo's public address, and removes the logo again if the insert fails.
     */
    method AddNewCompany(form: FormData, random: nat, upload: Reply, insert: Reply, remove: Reply)
      returns (outcome: Outcome)
      requires random < RandomBound
      modifies this
      ensures var r := Create(old(State()), baseUrl, form, random, upload, insert, remove);
        State() == r.after && outcome == r.outcome
    {
      if form.logo.None? {
        return Threw(MissingLogo);
      }
      var fileName := ObjectKey(form.name, random);
      var storageError := UploadObject(ObjectId(Bucket, fileName), form.logo.value, upload);
      if storageError.Some? {
        return Threw(StorageError(storageError.value));
      }
      var logoUrl := PublicUrl(baseUrl, fileName);
      var insertedCompany, dbError := InsertRows([Row(form.name, logoUrl)], insert);
      if dbError.Some? {
        assert (set k | k in [fileName] :: ObjectId(Bucket, k)) == {ObjectId(Bucket, fileName)};
        var _ := RemoveObjects(Bucket, [fileName], remove);
        return Threw(DatabaseError(dbError.value));
      }
      return Returned(insertedCompany);
    }
  }
}
