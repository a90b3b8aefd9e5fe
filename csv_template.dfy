/** The CSV template of the bulk upload modal (src/components/Vendor/BulkUploadModal.tsx,
    lines 28-31) and what the modal's own parser makes of it. Each line is written as the
    pieces between its commas; the descriptions of the first two data rows hold two commas
    inside their quotes, which the parser does not respect. */
module CsvTemplate {
  import opened Wrappers
  import opened Text
  import opened BulkUpload

  /* The longer texts are written word by word, so that the verifier meets their characters a
     few at a time. */
  const PizzaPieces: seq<string> := [Quoted("Margherita" + " Pizza"),
    "\"Classic" + " pizza" + " with" + " tomato" + " sauce", " mozzarella", " and" + " fresh" + " basil\"", "85.00",
    Quoted("Food"), Quoted("https://" + "example" + ".com" + "/pizza" + ".jpg"), "true"]
  const BurgerPieces: seq<string> := [Quoted("Chicken" + " Burger"),
    "\"Grilled" + " chicken" + " breast" + " with" + " lettuce", " tomato", " and" + " mayo\"", "65.00",
    Quoted("Food"), Quoted("https://" + "example" + ".com" + "/burger" + ".jpg"), "true"]

  const CakeName := "Chocolate" + " Cake"
  const CakeDescription := "Rich" + " chocolate" + " cake" + " with" + " chocolate" + " frosting"
  const CakeCategory := "Desserts"
  const CakePieces: seq<string> := [Quoted(CakeName), Quoted(CakeDescription), "45.00", Quoted(CakeCategory), Quoted(""), "true"]

  /** The cells of the cake row once quotes are deleted. */
  const CakeValues: seq<string> := [CakeName, CakeDescription, "45.00", CakeCategory, "", "true"]

  const TemplateLines: seq<string> :=
    [Join(RequiredHeaders, ','), Join(PizzaPieces, ','), Join(BurgerPieces, ','), Join(CakePieces, ',')]

  /** The downloadable template: the header line and three data lines. */
  const Template: string := Join(TemplateLines, '\n')

  lemma HeaderCleans()
    ensures forall j :: 0 <= j < |RequiredHeaders| ==> CleansTo(RequiredHeaders[j], RequiredHeaders[j])
  {}

  lemma HeaderCells()
    ensures Cells(Join(RequiredHeaders, ',')) == RequiredHeaders
  {
    HeaderCleans();
    CellsOf(RequiredHeaders, RequiredHeaders);
  }

  /** The cake's description, the longest cell of its row. */
  lemma CakeDescriptionCleans()
    ensures CleansTo(CakePieces[1], CakeValues[1])
  {}

  /** The cake's name and category. */
  lemma CakeNamesClean()
    ensures CleansTo(CakePieces[0], CakeValues[0]) && CleansTo(CakePieces[3], CakeValues[3])
  {}

  lemma CakeCleans()
    ensures forall j :: 0 <= j < |CakePieces| ==> CleansTo(CakePieces[j], CakeValues[j])
  {
    CakeDescriptionCleans();
    CakeNamesClean();
    assert CleansTo(CakePieces[2], CakeValues[2]);
    assert CleansTo(CakePieces[4], CakeValues[4]);
    assert CleansTo(CakePieces[5], CakeValues[5]);
  }

  lemma CakeCells()
    ensures Cells(Join(CakePieces, ',')) == CakeValues
  {
    CakeCleans();
    CellsOf(CakePieces, CakeValues);
  }

  lemma HeaderAvoidsNewline()
    ensures Avoids(RequiredHeaders, '\n')
  {}

  lemma CakeAvoidsNewline()
    ensures Avoids(CakePieces, '\n')
  {
    forall k | 0 <= k < |CakePieces|
      ensures '\n' !in CakePieces[k]
    {
      if k != 2 && k != 5 {
        QuotedAvoids(CakeValues[k], '\n');
      }
    }
  }

  /** The long pieces of the pizza row: its description, cut at its commas, and its image. */
  lemma PizzaTextAvoids(d: char)
    requires d == ',' || d == '\n'
    ensures forall k :: (1 <= k <= 3 || k == 6) ==> d !in PizzaPieces[k]
  {}

  /** The long pieces of the burger row: its description, cut at its commas, and its image. */
  lemma BurgerTextAvoids(d: char)
    requires d == ',' || d == '\n'
    ensures forall k :: (1 <= k <= 3 || k == 6) ==> d !in BurgerPieces[k]
  {}

  lemma PizzaAvoidsNewline()
    ensures Avoids(PizzaPieces, '\n')
  {
    PizzaTextAvoids('\n');
  }

  lemma BurgerAvoidsNewline()
    ensures Avoids(BurgerPieces, '\n')
  {
    BurgerTextAvoids('\n');
  }

  lemma PizzaAvoidsComma()
    ensures Avoids(PizzaPieces, ',')
  {
    PizzaTextAvoids(',');
  }

  lemma BurgerAvoidsComma()
    ensures Avoids(BurgerPieces, ',')
  {
    BurgerTextAvoids(',');
  }

  lemma LinesAvoidNewline()
    ensures Avoids(TemplateLines, '\n')
  {
    HeaderAvoidsNewline();
    CakeAvoidsNewline();
    PizzaAvoidsNewline();
    BurgerAvoidsNewline();
    LinesAvoid(RequiredHeaders, PizzaPieces, BurgerPieces, CakePieces, ',', '\n');
  }

  lemma FirstLineStart()
    ensures TemplateLines[0] != [] && !IsSpace(TemplateLines[0][0])
  {
    JoinFirst(RequiredHeaders, ',');
  }

  lemma LastLineEnd()
    ensures TemplateLines[3] != [] && !IsSpace(TemplateLines[3][|TemplateLines[3]| - 1])
  {
    JoinLast(CakePieces, ',');
  }

  /** The template splits into its four lines. */
  lemma TemplateSplits()
    ensures Split(Trim(Template), '\n') == TemplateLines
  {
    LinesAvoidNewline();
    FirstLineStart();
    LastLineEnd();
    SplitLines(TemplateLines);
  }

  /** The two commas inside the quoted descriptions give the first two data rows eight cells
      where the header has six. */
  lemma QuotedCommasAddColumns()
    ensures |Cells(Join(PizzaPieces, ','))| == 8 && |Cells(Join(BurgerPieces, ','))| == 8
    ensures |Cells(Join(RequiredHeaders, ','))| == 6
  {
    PizzaAvoidsComma();
    BurgerAvoidsComma();
    CellsOfJoin(PizzaPieces);
    CellsOfJoin(BurgerPieces);
    HeaderCells();
  }

  lemma CakePricePositive()
    ensures ParseFloatOrZero("45.00") > 0.0
  {
    ParseFloatPositive("45.00");
  }

  lemma TrueLowered()
    ensures ToLower("true") == "true"
  {
    LowerCaseKept("true");
  }

  /** The header passes the check and the first two data rows are dropped. */
  lemma TemplateKeepsLastLine()
    ensures ParseCsv(Template) == Success(LineProducts(RequiredHeaders, TemplateLines[3]))
  {
    var lines := Split(Trim(Template), '\n');
    assert ParseCsv(Template) == ParseLines(lines);
    assert lines == TemplateLines by {
      TemplateSplits();
    }
    assert Cells(lines[0]) == RequiredHeaders by {
      HeaderCells();
    }
    assert HasAllHeaders(RequiredHeaders) by {
      RequiredHeadersLower();
    }
    var rest := lines[1..];
    assert rest == [TemplateLines[1], TemplateLines[2], TemplateLines[3]];
    assert KeptRows(RequiredHeaders, rest) == LineProducts(RequiredHeaders, TemplateLines[3]) by {
      QuotedCommasAddColumns();
      OnlyThirdLine(RequiredHeaders, TemplateLines[1], TemplateLines[2], TemplateLines[3]);
    }
  }

  lemma CakeLineParses()
    ensures LineProducts(RequiredHeaders, TemplateLines[3])
      == [ProductRow(CakeName, CakeDescription, ParseFloatOrZero("45.00"), CakeCategory, "", true)]
  {
    CakeCells();
    RequiredHeadersLower();
    RowFromSix(RequiredHeaders, CakeValues);
    CakePricePositive();
    TrueLowered();
  }

  /** Parsing the modal's own template yields one product, the chocolate cake: the pizza and
      burger rows are lost to the commas in their descriptions. */
  lemma TemplateParsesToCakeOnly()
    ensures ParseCsv(Template)
      == Success([ProductRow(CakeName, CakeDescription, ParseFloatOrZero("45.00"), CakeCategory, "", true)])
    ensures ParseFloatOrZero("45.00") > 0.0
  {
    TemplateKeepsLastLine();
    CakeLineParses();
    CakePricePositive();
  }
}
