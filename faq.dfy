/**
 * The FAQ screen: a fixed list of four translated question/answer pairs and an
 * accordion in which at most one item is open at a time.
 */
module Faq {
  import opened Wrappers
  import opened Translations

  datatype FaqItem = FaqItem(question: string, answer: string)

  /** The translation keys of the listed items, in display order. */
  const QuestionKeys: seq<string> := ["faqQ1", "faqQ2", "faqQ3", "faqQ4"]
  const AnswerKeys: seq<string> := ["faqA1", "faqA2", "faqA3", "faqA4"]

  /** The listed keys, and the fifth question and answer that the tables also hold. */
  const ListedKeys: set<string> := {"faqQ1", "faqQ2", "faqQ3", "faqQ4", "faqA1", "faqA2", "faqA3", "faqA4"}
  const UnlistedKeys: set<string> := {"faqQ5", "faqA5"}

  /** The `faqItems` list, built with `t`, i.e. by looking each key up in the current table. */
  function FaqItems(table: map<string, string>): (items: seq<FaqItem>)
    ensures |items| == |QuestionKeys| == 4
    ensures forall i :: 0 <= i < |items| ==>
      items[i] == FaqItem(Lookup(table, QuestionKeys[i]), Lookup(table, AnswerKeys[i]))
  {
    seq(|QuestionKeys|, i requires 0 <= i < |QuestionKeys| =>
      FaqItem(Lookup(table, QuestionKeys[i]), Lookup(table, AnswerKeys[i])))
  }

  /** With a table that holds every listed key, item i shows the entries of faqQi and faqAi. */
  lemma ListedItemsShowEntries(table: map<string, string>, i: nat)
    requires NoEmptyEntry(table) && ListedKeys <= table.Keys
    requires i < |QuestionKeys|
    ensures FaqItems(table)[i] == FaqItem(table[QuestionKeys[i]], table[AnswerKeys[i]])
  {
    assert QuestionKeys[i] in ListedKeys && AnswerKeys[i] in ListedKeys;
    LookupFound(table, QuestionKeys[i]);
    LookupFound(table, AnswerKeys[i]);
  }

  /** Both tables hold every listed key. */
  lemma {:induction false} ListedKeysTranslated()
    ensures ListedKeys <= CsTable.Keys && ListedKeys <= EnTable.Keys
  {
    FaqKeysInFaqSection();
    FaqSectionInTables();
    SubsetOfSubset(ListedKeys, CsFaq.Keys, CsTable.Keys);
    SubsetOfSubset(ListedKeys, EnFaq.Keys, EnTable.Keys);
  }

  /** Both tables hold the fifth question and answer, which are not among the listed keys. */
  lemma {:induction false} FifthQuestionNeverListed()
    ensures UnlistedKeys <= CsTable.Keys && UnlistedKeys <= EnTable.Keys
    ensures UnlistedKeys !! ListedKeys
  {
    FaqKeysInFaqSection();
    FaqSectionInTables();
    SubsetOfSubset(UnlistedKeys, CsFaq.Keys, CsTable.Keys);
    SubsetOfSubset(UnlistedKeys, EnFaq.Keys, EnTable.Keys);
    FifthKeysNotListed();
  }

  lemma FifthKeysNotListed()
    ensures UnlistedKeys !! ListedKeys
  {
  }

  lemma FaqKeysInFaqSection()
    ensures ListedKeys <= CsFaq.Keys && ListedKeys <= EnFaq.Keys
    ensures UnlistedKeys <= CsFaq.Keys && UnlistedKeys <= EnFaq.Keys
  {
  }

  lemma SubsetOfSubset(a: set<string>, b: set<string>, c: set<string>)
    requires a <= b && b <= c
    ensures a <= c
  {
  }

  const ContactTitleCs: string := "Potřebujete další informace?"
  const ContactTitleEn: string := "Need more information?"

  /** The contact box title: `t('language') === 'cs' ? … : …`. */
  function ContactTitle(lang: Language): string {
    if Translate(lang, "language") == "cs" then ContactTitleCs else ContactTitleEn
  }

  /** `language` is not a translation key, so `t('language')` is "language" and the contact box
      shows its English text whatever the current language. */
  lemma ContactBoxAlwaysEnglish(lang: Language)
    ensures ContactTitle(lang) == ContactTitleEn
  {
    UntranslatedKeysEchoed(lang, "language");
  }

  /** `toggleExpand(index)` on the open cell: closes index if it is open, otherwise opens it alone. */
  function Toggle(expanded: Option<nat>, index: nat): (r: Option<nat>)
    ensures r.None? <==> expanded == Some(index)
    ensures r.Some? ==> r.value == index
  {
    if expanded == Some(index) then None else Some(index)
  }

  /** After a toggle, item j is open exactly when j is the toggled item and it was not open before. */
  lemma ToggleOpensOnlyTarget(expanded: Option<nat>, index: nat, j: nat)
    ensures Toggle(expanded, index) == Some(j) <==> (j == index && expanded != Some(index))
  {
  }

  /** Toggling the same item twice from a closed accordion, or from that item open, restores it. */
  lemma {:induction false} ToggleTwice(expanded: Option<nat>, index: nat)
    requires expanded == None || expanded == Some(index)
    ensures Toggle(Toggle(expanded, index), index) == expanded
  {
  }

  class FaqScreen {
    var expandedIndex: Option<nat>

    /** At most one item is open, and it is one of the listed items. */
    ghost predicate Valid()
      reads this
    {
      expandedIndex.Some? ==> expandedIndex.value < |QuestionKeys|
    }

    constructor ()
      ensures Valid() && expandedIndex == None
    {
      expandedIndex := None;
    }

    /** Pressing item `index` of the list. */
    method ToggleExpand(index: nat)
      requires Valid() && index < |QuestionKeys|
      modifies this
      ensures Valid()
      ensures expandedIndex == Toggle(old(expandedIndex), index)
    {
      expandedIndex := if expandedIndex == Some(index) then None else Some(index);
    }

    /** Whether item i shows its answer (`expandedIndex === index`). */
    function IsExpanded(i: nat): (b: bool)
      reads this
      ensures b ==> forall j: nat :: j != i ==> expandedIndex != Some(j)
    {
      expandedIndex == Some(i)
    }
  }
}
