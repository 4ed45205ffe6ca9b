/** The mutable index of ml-service/app/search/keyword_index.py with its dirty flag. */
module KeywordIndexes {
  import opened Collections
  import K = Keywords

  class KeywordIndex {
    const model: K.Bm25
    var texts: Dict<string, string>
    var documentByChunk: Dict<string, string>
    var bm25: Option<seq<seq<string>>>  // the corpus the scorer was built from
    var chunkIds: seq<string>
    var tokensByChunk: map<string, set<string>>
    var dirty: bool

    ghost function View(): K.Keywords
      reads this
    {
      K.Keywords(texts, documentByChunk)
    }

    /** A clean cache is the one a rebuild would produce. */
    ghost predicate Valid()
      reads this
    {
      && View().Valid()
      && (!dirty ==>
            && chunkIds == texts.order
            && tokensByChunk == K.TokenSets(model, texts.order, texts.at)
            && bm25 == if texts.order == [] then None else Some(K.Corpus(model, texts.order, texts.at)))
    }

    constructor (model: K.Bm25)
      ensures Valid() && View() == K.NONE && this.model == model
    {
      this.model := model;
      texts, documentByChunk := Dict([], map[]), Dict([], map[]);
      bm25, chunkIds, tokensByChunk, dirty := None, [], map[], true;
    }

    method Upsert(chunkId: string, documentId: string, text: string)
      requires Valid()
      modifies this
      ensures Valid() && View() == K.Put(old(View()), chunkId, documentId, text)
    {
      K.PutValid(View(), chunkId, documentId, text);
      texts := texts.Put(chunkId, text);
      documentByChunk := documentByChunk.Put(chunkId, documentId);
      dirty := true;
    }

    method DeleteByDocument(documentId: string) returns (count: nat)
      requires Valid()
      modifies this
      ensures Valid() && (View(), count) == K.Delete(old(View()), documentId)
    {
      ghost var k := View();
      K.DeleteSpec(k, documentId);
      hide K.ChunksOf, K.TokenSets, K.Corpus, NoDup, Without, K.Drop, K.Keywords.Valid;
      K.DropNothing(k);
      var toRemove := K.ChunksOf(documentByChunk.order, documentByChunk.at, documentId);
      for i := 0 to |toRemove|
        modifies `texts, `documentByChunk
        invariant View() == K.Drop(k, toRemove[..i])
      {
        K.DropStep(k, toRemove, i);
        texts := texts.Remove(toRemove[i]);
        documentByChunk := documentByChunk.Remove(toRemove[i]);
      }
      assert toRemove[..|toRemove|] == toRemove;
      assert (View(), |toRemove|) == K.Delete(k, documentId);
      hide K.Delete;
      if toRemove != [] {
        dirty := true;
      }
      count := |toRemove|;
    }

    /** Whatever the cache holds, the answer is that of an index freshly built from the texts. */
    method Search(query: string, topK: int) returns (matches: seq<(string, real)>)
      requires Valid()
      modifies this
      ensures Valid() && View() == old(View())
      ensures matches == K.Search(model, old(View()), query, topK)
      ensures K.IsAnswer(model, old(texts), query, topK, matches)
    {
      K.SearchSpec(model, View(), query, topK);
      hide K.IsAnswer, K.Search;
      matches := Matches(query, topK);
    }

    method Matches(query: string, topK: int) returns (matches: seq<(string, real)>)
      requires Valid()
      modifies this
      ensures Valid() && View() == old(View())
      ensures matches == K.Search(model, old(View()), query, topK)
    {
      var queryTokens := K.TokenSet(model, query);
      if queryTokens == {} {
        K.NoTokensNoMatches(model, View(), query);
        return [];
      }
      RebuildIfDirty();
      if bm25 == None {
        return [];
      }
      var candidates := [];
      for i := 0 to |chunkIds|
        invariant candidates == K.Candidates(model, bm25.value, chunkIds, tokensByChunk, queryTokens, i)
      {
        if queryTokens * tokensByChunk[chunkIds[i]] != {} {
          candidates := candidates + [(chunkIds[i], model.score(bm25.value, queryTokens, i))];
        }
      }
      matches := Slice(SortDesc(candidates, K.ScoreOf()), topK);
    }

    method RebuildIfDirty()
      requires Valid()
      modifies this
      ensures Valid() && !dirty && View() == old(View())
    {
      if !dirty {
        return;
      }
      chunkIds := texts.order;
      tokensByChunk := K.TokenSets(model, chunkIds, texts.at);
      if chunkIds != [] {
        bm25 := Some(K.Corpus(model, chunkIds, texts.at));
      } else {
        bm25 := None;
      }
      dirty := false;
    }
  }
}
