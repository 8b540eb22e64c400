/**
 * The two MongoDB collections the core reads and writes, as one mutable store: `Salarie` documents
 * (workers) and `Chantier` documents (sites), each in the collection's natural order. Every
 * `save()` / `updateOne()` of the source replaces one record of this store in place.
 */
module Store {
  import opened Records

  class Database {
    var workers: seq<Worker>
    var sites: seq<Site>

    constructor (workers: seq<Worker>, sites: seq<Site>)
      ensures this.workers == workers && this.sites == sites
    {
      this.workers := workers;
      this.sites := sites;
    }
  }
}
