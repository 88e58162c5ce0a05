/** A Python `dict` of string tags: a mutable object that is shared, not copied, when passed on. */
module Dicts {

  class TagMap {
    var entries: map<string, string>

    constructor (entries: map<string, string>)
      ensures this.entries == entries
    {
      this.entries := entries;
    }
  }
}
