/**
 * The static menu of the cafeteria page (src/pages/Index.tsx): the record
 * type of a dish, the fixed catalog of fifteen dishes, the five category
 * names, and the category filter that decides which dishes the page shows.
 */
module Menu {

  /** One dish of the catalog. Prices are whole roubles. */
  datatype MenuItem = MenuItem(
    id: int,
    name: string,
    category: string,
    price: nat,
    weight: string,
    description: string)

  /** The sentinel selection that shows the whole catalog. */
  const All: string := "all"

  const FirstCourses: string := "Первые блюда"
  const MainCourses: string := "Вторые блюда"
  const Salads: string := "Салаты"
  const Drinks: string := "Напитки"
  const Pastries: string := "Выпечка"

  /** The category buttons, in the order the page lists them. */
  function Categories(): (r: seq<string>)
    ensures |r| == 5 && All !in r
    ensures forall i, j :: 0 <= i < j < |r| ==> r[i] != r[j]
  {
    [FirstCourses, MainCourses, Salads, Drinks, Pastries]
  }

  /** The fixed catalog, in display order: three dishes of each category, categories in button order. */
  function Catalog(): (r: seq<MenuItem>)
    ensures |r| == 15
  {
    FirstCourseDishes() + MainCourseDishes() + SaladDishes() + DrinkDishes() + PastryDishes()
  }

  function FirstCourseDishes(): seq<MenuItem>
  {
    [ MenuItem(1, "Борщ с говядиной", FirstCourses, 180, "300г", "Классический борщ со сметаной"),
      MenuItem(2, "Щи кислые", FirstCourses, 160, "300г", "Традиционные щи из квашеной капусты"),
      MenuItem(3, "Куриный бульон с лапшой", FirstCourses, 140, "300г", "Домашний бульон") ]
  }

  function MainCourseDishes(): seq<MenuItem>
  {
    [ MenuItem(4, "Котлеты по-киевски", MainCourses, 280, "200г", "С гарниром из картофельного пюре"),
      MenuItem(5, "Гуляш с гречкой", MainCourses, 250, "350г", "Тушёная говядина с гречневой кашей"),
      MenuItem(6, "Рыба жареная", MainCourses, 240, "200г", "С рисом и овощами") ]
  }

  function SaladDishes(): seq<MenuItem>
  {
    [ MenuItem(7, "Сельдь под шубой", Salads, 150, "150г", "Классический слоёный салат"),
      MenuItem(8, "Оливье", Salads, 140, "150г", "Традиционный советский салат"),
      MenuItem(9, "Винегрет", Salads, 120, "150г", "Овощной салат со свёклой") ]
  }

  function DrinkDishes(): seq<MenuItem>
  {
    [ MenuItem(10, "Компот из сухофруктов", Drinks, 60, "250мл", "Домашний компот"),
      MenuItem(11, "Кисель клюквенный", Drinks, 70, "250мл", "Густой кисель"),
      MenuItem(12, "Чай с лимоном", Drinks, 50, "200мл", "Крепкий чёрный чай") ]
  }

  function PastryDishes(): seq<MenuItem>
  {
    [ MenuItem(13, "Пирожки с капустой", Pastries, 80, "100г", "Печёные пирожки"),
      MenuItem(14, "Ватрушка с творогом", Pastries, 90, "120г", "Сладкая ватрушка"),
      MenuItem(15, "Булочка с маком", Pastries, 70, "80г", "Свежая сдоба") ]
  }

  /** No two dishes of the catalog share an id. */
  ghost predicate DistinctIds(items: seq<MenuItem>)
  {
    forall i, j :: 0 <= i < j < |items| ==> items[i].id != items[j].id
  }

  /** The dishes of `items` whose category is exactly `category`, in their original order. */
  function OfCategory(items: seq<MenuItem>, category: string): (r: seq<MenuItem>)
    ensures |r| <= |items|
    ensures forall x :: x in r <==> x in items && x.category == category
  {
    if items == [] then []
    else (if items[0].category == category then [items[0]] else []) + OfCategory(items[1..], category)
  }

  /** What the menu grid shows for a selection: everything for `All`, otherwise one category. */
  function Filtered(items: seq<MenuItem>, selected: string): (r: seq<MenuItem>)
    ensures selected == All ==> r == items
    ensures selected != All ==> forall x :: x in r <==> x in items && x.category == selected
  {
    if selected == All then items else OfCategory(items, selected)
  }

  /** The category filter distributes over concatenation, so it keeps the catalog order. */
  lemma {:induction false} OfCategoryAppend(a: seq<MenuItem>, b: seq<MenuItem>, category: string)
    ensures OfCategory(a + b, category) == OfCategory(a, category) + OfCategory(b, category)
  {
    if a == [] {
      assert a + b == b;
    } else {
      assert (a + b)[1..] == a[1..] + b;
      OfCategoryAppend(a[1..], b, category);
    }
  }

  /** Filtering twice by the same category is filtering once. */
  lemma {:induction false} OfCategoryIdempotent(items: seq<MenuItem>, category: string)
    ensures OfCategory(OfCategory(items, category), category) == OfCategory(items, category)
  {
    if items != [] {
      OfCategoryIdempotent(items[1..], category);
      var head := if items[0].category == category then [items[0]] else [];
      OfCategoryAppend(head, OfCategory(items[1..], category), category);
      if items[0].category == category {
        assert OfCategory([items[0]], category) == [items[0]] + OfCategory([], category);
      }
    }
  }

  /** Dish ids in the catalog are 1 to 15 in order, hence distinct. */
  lemma CatalogIdsDistinct()
    ensures |Catalog()| == 15
    ensures forall i :: 0 <= i < |Catalog()| ==> Catalog()[i].id == i + 1
    ensures DistinctIds(Catalog())
  {
  }

  /** The six selection strings of the page are pairwise different. */
  lemma SelectionNamesDistinct()
    ensures FirstCourses != MainCourses && FirstCourses != Salads && FirstCourses != Drinks && FirstCourses != Pastries
    ensures MainCourses != Salads && MainCourses != Drinks && MainCourses != Pastries
    ensures Salads != Drinks && Salads != Pastries && Drinks != Pastries
    ensures All !in Categories()
  {
  }

  /** Each block of three dishes is filed under its own category. */
  lemma DishBlocksCategories()
    ensures forall x :: x in FirstCourseDishes() ==> x.category == FirstCourses
    ensures forall x :: x in MainCourseDishes() ==> x.category == MainCourses
    ensures forall x :: x in SaladDishes() ==> x.category == Salads
    ensures forall x :: x in DrinkDishes() ==> x.category == Drinks
    ensures forall x :: x in PastryDishes() ==> x.category == Pastries
  {
  }

  /** Every dish belongs to one of the five listed categories, and none is filed under `All`. */
  lemma CatalogCategoriesListed()
    ensures forall x :: x in Catalog() ==> x.category in Categories() && x.category != All
  {
    SelectionNamesDistinct();
    DishBlocksCategories();
  }

  /** A selection that is neither `All` nor a listed category shows no dish at all. */
  lemma UnknownCategoryShowsNothing(selected: string)
    requires selected != All && selected !in Categories()
    ensures Filtered(Catalog(), selected) == []
  {
    CatalogCategoriesListed();
    OfCategoryNone(Catalog(), selected);
  }

  /** A category that no dish carries filters everything out. */
  lemma {:induction false} OfCategoryNone(items: seq<MenuItem>, category: string)
    requires forall x :: x in items ==> x.category != category
    ensures OfCategory(items, category) == []
  {
    if items != [] {
      assert items[0] in items;
      OfCategoryNone(items[1..], category);
    }
  }

  /** When every dish carries the category, the filter keeps the whole list. */
  lemma {:induction false} OfCategoryEvery(items: seq<MenuItem>, category: string)
    requires forall x :: x in items ==> x.category == category
    ensures OfCategory(items, category) == items
  {
    if items != [] {
      assert items[0] in items;
      OfCategoryEvery(items[1..], category);
    }
  }

  /** A block of one category between blocks without it is exactly what the filter keeps. */
  lemma OfCategoryBlock(before: seq<MenuItem>, block: seq<MenuItem>, after: seq<MenuItem>, category: string)
    requires forall x :: x in before ==> x.category != category
    requires forall x :: x in block ==> x.category == category
    requires forall x :: x in after ==> x.category != category
    ensures OfCategory(before + block + after, category) == block
  {
    OfCategoryNone(before, category);
    OfCategoryEvery(block, category);
    OfCategoryNone(after, category);
    OfCategoryAppend(before, block, category);
    OfCategoryAppend(before + block, after, category);
  }

  /** The drinks button shows exactly compote, kissel and tea, in catalog order. */
  lemma DrinksSelection()
    ensures Filtered(Catalog(), Drinks) == DrinkDishes()
  {
    SelectionNamesDistinct();
    DishBlocksCategories();
    OfCategoryBlock(FirstCourseDishes() + MainCourseDishes() + SaladDishes(), DrinkDishes(), PastryDishes(), Drinks);
  }
}
