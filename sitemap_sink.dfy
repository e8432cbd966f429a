/**
 * The sitemap writer as the job sees it: it is created for a domain, told a
 * path and a file name, accumulates entries in insertion order, and is
 * finally asked to write its index. Serialisation and file output are not
 * modelled; the index request records what the writer was handed.
 */
module SitemapSink {
  import opened Catalog

  class Sitemap {
    const domain: string
    var path: Option<string>
    var filename: Option<string>
    var entries: seq<Entry>
    var index: Option<IndexRequest>

    constructor (domain: string)
      ensures this.domain == domain
      ensures path == None && filename == None && entries == [] && index == None
    {
      this.domain := domain;
      path, filename, entries, index := None, None, [], None;
    }

    method SetPath(p: string)
      modifies this`path
      ensures path == Some(p)
    {
      path := Some(p);
    }

    method SetFilename(f: string)
      modifies this`filename
      ensures filename == Some(f)
    {
      filename := Some(f);
    }

    /** `addItem`: appends one entry; it never fails. */
    method AddItem(loc: string, priority: Option<real>, changeFreq: Option<string>, lastMod: Option<string>)
      modifies this`entries
      ensures entries == old(entries) + [Entry(loc, priority, changeFreq, lastMod)]
    {
      entries := entries + [Entry(loc, priority, changeFreq, lastMod)];
    }

    /** `createSitemapIndex`: hands every accumulated entry, in order, to the writer. */
    method CreateSitemapIndex(loc: string, lastMod: string)
      modifies this`index
      ensures index == Some(IndexRequest(loc, lastMod, entries))
    {
      index := Some(IndexRequest(loc, lastMod, entries));
    }
  }
}
