/**
 * The category labels the expense screens render with `t('cat_' + id)`
 * (app/expenses/create.tsx and app/expenses/[id].tsx), against the category
 * ids of types/index.ts.
 */
module CategoryLabels {
  import opened Common
  import opened Types
  import opened Translations

  /** The label of a category in a locale. */
  ghost function CategoryLabel(locale: string, c: ExpenseCategory): Option<string> {
    TAny(locale, "cat_" + CategoryId(c))
  }

  /** The table key whose name is 'cat_' followed by the category's id; accommodation has none. */
  function LabelKey(c: ExpenseCategory): (r: Option<CategoriesKey>)
    ensures r.Some? ==> KeyNameCategories(r.value) == "cat_" + CategoryId(c)
    ensures r.None? <==> c == Accommodation
  {
    match c
    case Transport => Some(CatTransport)
    case Accommodation => None
    case Fuel => Some(CatFuel)
    case Parking => Some(CatParking)
    case Meals => Some(CatMeals)
    case Other => Some(CatOther)
  }

  /** The accommodation category has no table entry, so it is labelled with its raw key in both locales. */
  lemma AccommodationLabelIsRawKey(locale: string)
    requires locale == "en" || locale == "ja"
    ensures CategoryLabel(locale, Accommodation) == Some("cat_accommodation")
  {
    assert "cat_" + CategoryId(Accommodation) == "cat_accommodation";
    NoAccommodationKey();
  }

  /** Every other category is labelled with its non-empty table entry in both locales, never the raw key. */
  lemma OtherCategoriesTranslated(locale: string, c: ExpenseCategory)
    requires locale == "en" || locale == "ja"
    requires c != Accommodation
    ensures var k := CategoriesSection(LabelKey(c).value);
      CategoryLabel(locale, c) == Some(if locale == "en" then EnText(k) else JaText(k))
    ensures CategoryLabel(locale, c).value != ""
  {
    var key := LabelKey(c).value;
    CategoryNameLookup(locale, key);
    Translated(locale, CategoriesSection(key));
  }
}
