/**
 The per-category icon and colour of the client (`src/lib/utils.ts`).
 Both are total: a category outside the eleven named ones, "other"
 included, gets the fallback.
 */
module CategoryStyle {
  import opened Models

  /** The icons of the icon set that the categories use. */
  datatype Icon =
    | HomeIcon | Utensils | Car | Zap | HeartPulse | Gamepad | ShoppingBag
    | GraduationCap | UserIcon | DollarSign | PiggyBank | HelpCircle

  /** The categories with an icon and colour of their own, in the order the switches list them. */
  const Named: seq<Category> :=
    [Housing, Food, Transportation, Utilities, Healthcare, Entertainment, Shopping, Education, Personal, Income, Savings]

  const DefaultColor := "bg-gray-500"

  function CategoryIcon(c: Category): Icon
  {
    if c == Housing then HomeIcon
    else if c == Food then Utensils
    else if c == Transportation then Car
    else if c == Utilities then Zap
    else if c == Healthcare then HeartPulse
    else if c == Entertainment then Gamepad
    else if c == Shopping then ShoppingBag
    else if c == Education then GraduationCap
    else if c == Personal then UserIcon
    else if c == Income then DollarSign
    else if c == Savings then PiggyBank
    else HelpCircle
  }

  function CategoryColor(c: Category): string
  {
    if c == Housing then "bg-blue-500"
    else if c == Food then "bg-green-500"
    else if c == Transportation then "bg-yellow-500"
    else if c == Utilities then "bg-orange-500"
    else if c == Healthcare then "bg-red-500"
    else if c == Entertainment then "bg-purple-500"
    else if c == Shopping then "bg-pink-500"
    else if c == Education then "bg-indigo-500"
    else if c == Personal then "bg-cyan-500"
    else if c == Income then "bg-teal-500"
    else if c == Savings then "bg-emerald-500"
    else DefaultColor
  }

  /** Reads a colour back as the category it belongs to; the fallback reads as "other". */
  function ColorOwner(color: string): Category
  {
    if color == "bg-blue-500" then Housing
    else if color == "bg-green-500" then Food
    else if color == "bg-yellow-500" then Transportation
    else if color == "bg-orange-500" then Utilities
    else if color == "bg-red-500" then Healthcare
    else if color == "bg-purple-500" then Entertainment
    else if color == "bg-pink-500" then Shopping
    else if color == "bg-indigo-500" then Education
    else if color == "bg-cyan-500" then Personal
    else if color == "bg-teal-500" then Income
    else if color == "bg-emerald-500" then Savings
    else Other
  }

  /** Each named category can be read back from its colour. */
  lemma ColorIdentifiesCategory(c: Category)
    requires c in Named
    ensures ColorOwner(CategoryColor(c)) == c
    ensures CategoryColor(c) != DefaultColor
  {
  }

  /** The named categories have pairwise different colours, none of them the fallback;
      every other category, "other" included, gets the fallback. */
  lemma ColorsTellCategoriesApart(a: Category, b: Category)
    ensures a in Named && b in Named && CategoryColor(a) == CategoryColor(b) ==> a == b
    ensures a in Named <==> CategoryColor(a) != DefaultColor
    ensures CategoryColor(Other) == DefaultColor
  {
    if a in Named {
      ColorIdentifiesCategory(a);
    }
    if b in Named {
      ColorIdentifiesCategory(b);
    }
  }

  /** Reads an icon back as the category it belongs to; the question mark reads as "other". */
  function IconOwner(icon: Icon): Category
  {
    match icon
    case HomeIcon => Housing
    case Utensils => Food
    case Car => Transportation
    case Zap => Utilities
    case HeartPulse => Healthcare
    case Gamepad => Entertainment
    case ShoppingBag => Shopping
    case GraduationCap => Education
    case UserIcon => Personal
    case DollarSign => Income
    case PiggyBank => Savings
    case HelpCircle => Other
  }

  /** Each named category can be read back from its icon. */
  lemma IconIdentifiesCategory(c: Category)
    requires c in Named
    ensures IconOwner(CategoryIcon(c)) == c
    ensures CategoryIcon(c) != HelpCircle
  {
  }

  /** Income and savings have their money icons; the named categories have pairwise
      different icons, none of them the question mark, which every other category gets. */
  lemma IconsOfCategories(a: Category, b: Category)
    ensures CategoryIcon(Income) == DollarSign && CategoryIcon(Savings) == PiggyBank
    ensures CategoryIcon(Other) == HelpCircle
    ensures a in Named && b in Named && CategoryIcon(a) == CategoryIcon(b) ==> a == b
    ensures a in Named <==> CategoryIcon(a) != HelpCircle
  {
    if a in Named {
      IconIdentifiesCategory(a);
    }
    if b in Named {
      IconIdentifiesCategory(b);
    }
  }
}
