/** The three tables of runtime-candidates/affiliate-item-lookup-schema.sql. */
module LookupTables {
  import opened Text

  datatype Rights = ConditionallyApproved | PendingPolicy | Prohibited
  datatype Lifecycle = PendingConfirmation | Resolved
  datatype Verification = Pass | Pending | Failed

  datatype Lookup = Lookup(content: string, rights: Rights, lifecycle: Lifecycle, verification: Verification,
                           enabled: bool, updated: string)

  datatype Target = Target(content: string, url: string, verified: string)

  datatype Event = Event(public: string, checked: string, outcome: string, enabledAfter: bool, reason: string)

  /** `lookup` and `targets` are keyed by their primary key, the public id. */
  datatype Db = Db(lookup: map<string, Lookup>, targets: map<string, Target>, events: seq<Event>)

  /** The CHECK on an affiliate URL; the comparison of the prefix is case-sensitive. */
  predicate UrlFits(url: string) { 12 <= |url| <= 4096 && url[..8] == "https://" }

  predicate EligibleToEnable(l: Lookup) {
    l.rights.ConditionallyApproved? && l.lifecycle.Resolved? && l.verification.Pass?
  }

  /** The CHECK, UNIQUE and REFERENCES clauses over all rows. */
  ghost predicate SchemaOk(db: Db) {
    && (forall p :: p in db.lookup && db.lookup[p].enabled ==> EligibleToEnable(db.lookup[p]))
    && (forall p, q :: p in db.lookup && q in db.lookup && db.lookup[p].content == db.lookup[q].content ==> p == q)
    && (forall p, q :: p in db.targets && q in db.targets && db.targets[p].content == db.targets[q].content ==> p == q)
    && (forall p :: p in db.targets ==> p in db.lookup && UrlFits(db.targets[p].url))
  }

  predicate ContentFree(db: Db, content: string) { forall p :: p in db.targets ==> db.targets[p].content != content }

  predicate Names(db: Db, public: string, content: string) {
    public in db.lookup && db.lookup[public].content == content
  }

  /** What a statement of a D1 batch never does: drop a row, give it another content id, change a target that
      is there, or rewrite history. */
  predicate Grows(db: Db, db': Db) {
    && db'.lookup.Keys == db.lookup.Keys && (forall p :: p in db.lookup ==>
                                             db'.lookup[p].content == db.lookup[p].content)
    && (forall p :: p in db.targets ==> p in db'.targets && db'.targets[p] == db.targets[p])
    && db.events <= db'.events
  }

  /** Every row keeps its content id; rows may be added. */
  predicate SameContents(db: Db, db': Db) {
    forall p :: p in db.lookup ==> p in db'.lookup && db'.lookup[p].content == db.lookup[p].content
  }

  lemma {:induction false} SameContentsThrough(a: Db, b: Db, c: Db)
    requires SameContents(a, b) && SameContents(b, c)
    ensures SameContents(a, c)
  {
  }

  lemma {:induction false} GrowsThrough(a: Db, b: Db, c: Db)
    requires Grows(a, b) && Grows(b, c)
    ensures Grows(a, c)
  {
  }
}
