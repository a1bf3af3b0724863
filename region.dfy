/** The county identifier used in a county's listing URL. */
module Region {
  import opened PyStr
  import opened Table

  /** `county.split(" ")[0].rstrip("s").lower()`: the first word, every
      trailing lower-case 's' removed, then lower-cased. */
  function NormalizeCounty(name: string): (r: string)
    ensures ' ' !in r
    ensures |r| <= |name|
  {
    var w := RStrip(FirstWord(name), 's');
    RStripShape(FirstWord(name), 's');
    LowerKeepsSpaces(w);
    Lower(w)
  }

  /** The identifier scraper_new.py derives from a county row's name: the
      filter's relabelling, then normalisation. */
  function CountyId(name: string): (r: string)
    ensures ' ' !in r
    ensures name == VastraGotalandLabel ==> r == VastraGotalandId
  {
    NormalizeVastraGotaland();
    NormalizeCounty(Relabel(name))
  }

  lemma NormalizeStockholm()
    ensures NormalizeCounty("Stockholms län") == "stockholm"
  {
    StockholmFirstWord();
    StockholmStrip();
  }

  lemma NormalizeVastraGotaland()
    ensures NormalizeCounty(VastraGotalandId) == VastraGotalandId
  {
    VastraGotalandIsLower();
    NormalizeIdentifier(VastraGotalandId);
  }

  /** A lower-case single word not ending in 's' is its own identifier. */
  lemma NormalizeIdentifier(w: string)
    requires ' ' !in w && IsLower(w) && (|w| == 0 || w[|w| - 1] != 's')
    ensures NormalizeCounty(w) == w
  {
    FirstWordOfWord(w);
    RStripNoTrailing(w, 's');
    LowerOfLower(w);
  }

  lemma VastraGotalandIsLower()
    ensures IsLower(VastraGotalandId)
  {
  }

  lemma StockholmFirstWord()
    ensures FirstWord("Stockholms län") == "Stockholms"
  {
    assert "Stockholms län" == "Stockholms" + " " + "län";
    FirstWordBefore("Stockholms", "län");
  }

  lemma StockholmStrip()
    ensures RStrip("Stockholms", 's') == "Stockholm"
    ensures Lower("Stockholm") == "stockholm"
  {
    assert "Stockholms"[..9] == "Stockholm";
    RStripNoTrailing("Stockholm", 's');
  }

  predicate EndsWithUpperS(w: string) {
    |w| > 0 && w[|w| - 1] == 'S'
  }

  /** Because the 's' is stripped before lower-casing, a first word that ends
      in an upper-case 'S' once its lower-case ones are gone loses one more
      letter on a second pass; otherwise normalising twice equals once. */
  lemma {:induction false} NormalizeTwiceIff(name: string)
    ensures NormalizeCounty(NormalizeCounty(name)) == NormalizeCounty(name)
        <==> !EndsWithUpperS(RStrip(FirstWord(name), 's'))
  {
    var y := RStrip(FirstWord(name), 's');
    var n := NormalizeCounty(name);
    assert n == Lower(y);
    FirstWordOfWord(n);
    if EndsWithUpperS(y) {
      assert n[|n| - 1] == 's';
      RStripTrailing(n, 's');
      assert |NormalizeCounty(n)| < |n|;
    } else {
      assert |n| == 0 || n[|n| - 1] != 's';
      RStripNoTrailing(n, 's');
      LowerIsLower(y);
    }
  }
}
