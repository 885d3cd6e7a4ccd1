/**
 * The template manager of autoresponder/templates.py: a cache of the active
 * templates, reloaded from the database when empty, and the first-match
 * search of an incoming text over it. The regular-expression engine is an
 * oracle giving the verdict of `re.search(trigger, text, re.IGNORECASE)`.
 */
module Templates {
  import opened Common
  import opened Text
  import Store

  /** What `re.search` does with a "^" trigger: finds it, does not, or raises re.error. */
  datatype RegexVerdict = Found | NotFound | Invalid

  /** `re.search(pattern, text, re.IGNORECASE)` as an oracle. */
  type Search = (string, string) -> RegexVerdict

  /**
   * A template fires on a text when its lowercased trigger occurs in the
   * lowercased text, or when the trigger starts with "^" and the regex
   * search finds it.
   */
  predicate Fires(t: Store.TemplateRow, text: string, search: Search)
  {
    Contains(Lower(text), Lower(t.trigger)) || (StartsWith(t.trigger, "^") && search(t.trigger, text) == Found)
  }

  /** The first template in cache order that fires. */
  function FirstMatch(cache: seq<Store.TemplateRow>, text: string, search: Search): (r: Option<Store.TemplateRow>)
    ensures r.Some? ==> r.value in cache && Fires(r.value, text, search)
  {
    if cache == [] then None
    else if Fires(cache[0], text, search) then Some(cache[0])
    else FirstMatch(cache[1..], text, search)
  }

  /**
   * FirstMatch is None exactly when no template fires, and otherwise the
   * template at the earliest position that fires.
   */
  lemma {:induction false} FirstMatchSpec(cache: seq<Store.TemplateRow>, text: string, search: Search)
    ensures FirstMatch(cache, text, search).None? <==> forall i :: 0 <= i < |cache| ==> !Fires(cache[i], text, search)
    ensures FirstMatch(cache, text, search).Some? ==>
      exists i :: 0 <= i < |cache| && cache[i] == FirstMatch(cache, text, search).value &&
                  forall j :: 0 <= j < i ==> !Fires(cache[j], text, search)
  {
    if cache != [] && !Fires(cache[0], text, search) {
      FirstMatchSpec(cache[1..], text, search);
      var r := FirstMatch(cache, text, search);
      if r.Some? {
        var i :| 0 <= i < |cache[1..]| && cache[1..][i] == r.value &&
                 forall j :: 0 <= j < i ==> !Fires(cache[1..][j], text, search);
        assert cache[i + 1] == r.value;
        assert forall j :: 0 <= j < i + 1 ==> !Fires(cache[j], text, search) by {
          forall j | 0 <= j < i + 1 ensures !Fires(cache[j], text, search) {
            if j > 0 {
              assert cache[j] == cache[1..][j - 1];
            }
          }
        }
      } else {
        forall i | 0 <= i < |cache| ensures !Fires(cache[i], text, search) {
          if i > 0 {
            assert cache[i] == cache[1..][i - 1];
          }
        }
      }
    }
  }

  /** A template with an empty trigger fires on every text. */
  lemma EmptyTriggerFires(t: Store.TemplateRow, text: string, search: Search)
    requires t.trigger == ""
    ensures Fires(t, text, search)
  {
    EmptyContained(Lower(text));
  }

  class TemplateManager {
    var templatesCache: seq<Store.TemplateRow>
    /** The clock at the last successful reload. */
    var cacheUpdated: Option<int>
    const db: Store.Database

    constructor (db: Store.Database)
      ensures this.db == db && templatesCache == [] && cacheUpdated.None?
    {
      this.db := db;
      templatesCache := [];
      cacheUpdated := None;
    }

    /** reload_templates: the cache becomes the active templates; a failed read is swallowed and changes nothing. */
    method ReloadTemplates(now: int)
      modifies this`templatesCache, this`cacheUpdated
      ensures db.open ==> templatesCache == Store.ActiveOnly(db.templates) && cacheUpdated == Some(now)
      ensures !db.open ==> templatesCache == old(templatesCache) && cacheUpdated == old(cacheUpdated)
    {
      var rows := db.GetActiveTemplates();
      if rows.Done? {
        templatesCache := rows.value;
        cacheUpdated := Some(now);
      }
    }

    /**
     * The scan of find_matching_template: the first cached template that
     * fires; a "^" trigger the engine rejects is skipped.
     */
    method Scan(text: string, search: Search) returns (r: Option<Store.TemplateRow>)
      ensures r == FirstMatch(templatesCache, text, search)
    {
      var textLower := Lower(text);
      var i := 0;
      while i < |templatesCache|
        invariant 0 <= i <= |templatesCache|
        invariant FirstMatch(templatesCache, text, search) == FirstMatch(templatesCache[i..], text, search)
      {
        var t := templatesCache[i];
        assert templatesCache[i..][1..] == templatesCache[i + 1..];
        if Contains(textLower, Lower(t.trigger)) {
          return Some(t);
        }
        if StartsWith(t.trigger, "^") {
          var verdict := search(t.trigger, text);
          if verdict == Found {
            return Some(t);
          }
        }
        i := i + 1;
      }
      return None;
    }

    /** find_matching_template: reload only when the cache is empty, then scan it. */
    method FindMatchingTemplate(text: string, search: Search, now: int) returns (r: Option<Store.TemplateRow>)
      modifies this`templatesCache, this`cacheUpdated
      ensures old(templatesCache) != [] || !db.open ==>
        templatesCache == old(templatesCache) && cacheUpdated == old(cacheUpdated)
      ensures old(templatesCache) == [] && db.open ==>
        templatesCache == Store.ActiveOnly(db.templates) && cacheUpdated == Some(now)
      ensures r == FirstMatch(templatesCache, text, search)
    {
      if templatesCache == [] {
        ReloadTemplates(now);
      }
      r := Scan(text, search);
    }

    /**
     * add_template: stores the template and reloads the cache, returning
     * the new id; when the store raises (a taken name, no connection) the
     * result is None and nothing changes.
     */
    method AddTemplate(name: string, trigger: string, response: string, now: int) returns (r: Option<nat>)
      requires db.Valid()
      modifies db`templates, this`templatesCache, this`cacheUpdated
      ensures db.Valid()
      ensures r.None? <==> !db.open || exists i :: 0 <= i < |old(db.templates)| && old(db.templates)[i].name == name
      ensures r.None? ==> db.templates == old(db.templates) && templatesCache == old(templatesCache) &&
                          cacheUpdated == old(cacheUpdated)
      ensures r.Some? ==> db.templates == old(db.templates) + [Store.TemplateRow(r.value, name, trigger, response, true, 0)] &&
                          templatesCache == Store.ActiveOnly(db.templates) && cacheUpdated == Some(now)
    {
      var added := db.AddTemplate(name, trigger, response);
      if added.DbError? {
        return None;
      }
      ReloadTemplates(now);
      return Some(added.value);
    }
  }
}
