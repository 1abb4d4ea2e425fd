/**
 * tree_detail.js: reading the tree id from the page path, the link to scan
 * the tree, and the scan-history list with its count.
 */
module TreeDetail {
  import opened Wrappers
  import opened JsValue
  import Text

  predicate IsHexDigit(c: char) {
    Text.IsDigit(c) || 'a' <= c <= 'f' || 'A' <= c <= 'F'
  }

  /** Drops one leading '+' or '-'. */
  function WithoutSign(s: string): (r: string)
    ensures s != [] && (s[0] == '+' || s[0] == '-') ==> r == s[1..]
    ensures !(s != [] && (s[0] == '+' || s[0] == '-')) ==> r == s
  {
    if s != [] && (s[0] == '+' || s[0] == '-') then s[1..] else s
  }

  /**
   * `!isNaN(parseInt(s))`: after leading whitespace and one sign, either a
   * "0x"/"0X" prefix followed by a hexadecimal digit, or no such prefix and
   * a decimal digit.
   */
  predicate ParseIntAccepts(s: string) {
    var t := WithoutSign(Text.TrimLeft(s, Text.IsJsSpace));
    if |t| >= 2 && t[0] == '0' && (t[1] == 'x' || t[1] == 'X') then |t| >= 3 && IsHexDigit(t[2])
    else t != [] && Text.IsDigit(t[0])
  }

  /**
   * getTreeIdFromUrl: the third '/'-separated piece of the path, verbatim,
   * when the second is "tree" and parseInt accepts the third.
   */
  function TreeIdFromUrl(pathname: string): (id: Option<string>)
    ensures id.Some? <==>
      var parts := Text.Split(pathname, '/');
      |parts| >= 3 && parts[1] == "tree" && ParseIntAccepts(parts[2])
    ensures id.Some? ==> id.value == Text.Split(pathname, '/')[2] && '/' !in id.value
  {
    var parts := Text.Split(pathname, '/');
    if |parts| >= 3 && parts[1] == "tree" && ParseIntAccepts(parts[2]) then Some(parts[2]) else None
  }

  /**
   * A path "/tree/<id>" gives back exactly <id>, with or without further
   * segments after it, whenever parseInt accepts <id>: trailing non-digits
   * stay in the id.
   */
  lemma TreePathRoundTrip(id: string, tail: string, path: string)
    requires '/' !in id && ParseIntAccepts(id)
    requires tail == [] || tail[0] == '/'
    requires path == "/tree/" + id + tail
    ensures TreeIdFromUrl(path) == Some(id)
  {
    var rest := id + tail;
    assert "/tree/" == [] + ['/'] + "tree" + ['/'];
    assert path == [] + ['/'] + ("tree" + ['/'] + rest);
    PathPieces("tree", id, tail, path);
  }

  /**
   * parseInt accepts any text that starts with a decimal digit, whatever
   * follows it (as in "12abc"), unless it starts with a hexadecimal prefix.
   */
  lemma DigitFirstAccepted(id: string)
    requires id != [] && Text.IsDigit(id[0])
    requires !(|id| >= 2 && id[0] == '0' && (id[1] == 'x' || id[1] == 'X'))
    ensures ParseIntAccepts(id)
  {
    assert !Text.IsJsSpace(id[0]);
    assert Text.TrimLeft(id, Text.IsJsSpace) == id;
  }

  /** The pieces of a path "/<first>/<id><tail>". */
  lemma PathPieces(first: string, id: string, tail: string, path: string)
    requires '/' !in first && '/' !in id
    requires tail == [] || tail[0] == '/'
    requires path == [] + ['/'] + (first + ['/'] + (id + tail))
    ensures |Text.Split(path, '/')| >= 3
    ensures Text.Split(path, '/')[1] == first && Text.Split(path, '/')[2] == id
  {
    var rest := id + tail;
    Text.SplitAfter([], '/', first + ['/'] + rest);
    Text.SplitAfter(first, '/', rest);
    assert Text.Split(path, '/') == [[]] + ([first] + Text.Split(rest, '/'));
    Text.SplitFirst(id, '/', tail);
  }

  /** A second segment other than "tree" never yields an id. */
  lemma OtherPagesHaveNoTreeId(first: string, id: string, tail: string, path: string)
    requires '/' !in first && '/' !in id && first != "tree"
    requires tail == [] || tail[0] == '/'
    requires path == "/" + first + "/" + id + tail
    ensures TreeIdFromUrl(path).None?
  {
    assert path == [] + ['/'] + (first + ['/'] + (id + tail));
    PathPieces(first, id, tail, path);
  }

  /** The href of the "scan this tree" link. */
  function ScanLink(farmId: Json, treeId: Json, numberText: real -> string): (link: string)
    ensures Text.StartsWith(link, "/scan?farm_id=")
  {
    "/scan?farm_id=" + JsString(farmId, numberText) + "&tree_id=" + JsString(treeId, numberText)
  }

  /** The two "name=value" pieces, joined by '&', split back apart. */
  lemma SplitPair(x: string, y: string)
    requires '&' !in x && '&' !in y
    ensures Text.Split("farm_id=" + x + "&tree_id=" + y, '&') == ["farm_id=" + x, "tree_id=" + y]
  {
    var f := "farm_id=" + x;
    var t := "tree_id=" + y;
    assert '&' !in "farm_id=" && '&' !in "tree_id=";
    assert '&' !in f && '&' !in t;
    assert "farm_id=" + x + "&tree_id=" + y == f + ['&'] + t;
    Text.SplitTwo(f, '&', t);
  }

  /** The link's query string holds exactly the two parameters, farm first, when neither value has a '&'. */
  lemma ScanLinkQuery(farmId: Json, treeId: Json, numberText: real -> string)
    requires '&' !in JsString(farmId, numberText) && '&' !in JsString(treeId, numberText)
    ensures Text.Split(ScanLink(farmId, treeId, numberText)[6..], '&')
         == ["farm_id=" + JsString(farmId, numberText), "tree_id=" + JsString(treeId, numberText)]
  {
    var x := JsString(farmId, numberText);
    var y := JsString(treeId, numberText);
    assert ScanLink(farmId, treeId, numberText)[6..] == "farm_id=" + x + "&tree_id=" + y;
    SplitPair(x, y);
  }

  /** One card of the scan history. */
  datatype ScanCard = ScanCard(imageId: Json, predictedClass: Json, statusClass: string)

  /** The card for one image: the 'healthy' badge exactly when the class is the string 'Healthy'. */
  function CardOf(image: Json): (card: ScanCard)
    ensures card.imageId == Prop(image, "image_id") && card.predictedClass == Prop(image, "predicted_class")
    ensures card.statusClass == "healthy" <==> Prop(image, "predicted_class") == JStr("Healthy")
    ensures card.statusClass == "healthy" || card.statusClass == "default"
  {
    var cls := Prop(image, "predicted_class");
    ScanCard(Prop(image, "image_id"), cls, if cls == JStr("Healthy") then "healthy" else "default")
  }

  /** The scan-history section of the page. */
  class ScanHistory {
    var scanCount: nat
    var cards: seq<ScanCard>
    var emptyNotice: bool

    constructor()
      ensures scanCount == 0 && cards == [] && !emptyNotice
    {
      scanCount := 0;
      cards := [];
      emptyNotice := false;
    }

    /**
     * renderScanHistory: the count shows the number of images, and there is
     * one card per image in the given order, or the empty notice when there
     * are none.
     */
    method Render(images: seq<Json>)
      modifies this
      ensures scanCount == |images|
      ensures emptyNotice <==> images == []
      ensures |cards| == |images|
      ensures forall i | 0 <= i < |images| :: cards[i] == CardOf(images[i])
    {
      cards := [];
      scanCount := |images|;
      if |images| == 0 {
        emptyNotice := true;
        return;
      }
      emptyNotice := false;
      for i := 0 to |images|
        invariant scanCount == |images| && !emptyNotice
        invariant |cards| == i
        invariant forall j | 0 <= j < i :: cards[j] == CardOf(images[j])
      {
        cards := cards + [CardOf(images[i])];
      }
    }
  }
}
