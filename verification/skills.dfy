/** The skills section: each category is laid out as a square grid of cubes
    whose side is the ceiling of the square root of the number of skills. */
module Skills {

  /** A skill as the grid shows it; the icon component is not modelled. */
  datatype Skill = Skill(name: string, color: string)

  datatype SkillCategory = SkillCategory(title: string, skills: seq<Skill>)

  /** `g` is the ceiling of the square root of `n`: the least side of a
      square grid with room for `n` cells. */
  predicate IsCeilSqrt(n: nat, g: nat) {
    g * g >= n && (g == 0 || (g - 1) * (g - 1) < n)
  }

  lemma SquareMonotone(a: nat, b: nat)
    requires a <= b
    ensures a * a <= b * b
  {
    assert a * a <= a * b <= b * b;
  }

  /** The upward search for the least `g` whose square reaches `n`, from a
      starting point below it. */
  function CeilSqrtFrom(n: nat, g: nat): (r: nat)
    requires g == 0 || (g - 1) * (g - 1) < n
    ensures IsCeilSqrt(n, r)
    decreases n - g
  {
    if g * g >= n then g
    else
      assert g <= g * g by {
        if g > 0 { SquareMonotone(1, g); }
      }
      CeilSqrtFrom(n, g + 1)
  }

  /** `getGridSize`: `Math.ceil(Math.sqrt(skillCount))`, over the integers. */
  function GridSize(skillCount: nat): (g: nat)
    ensures g * g >= skillCount
    ensures g == 0 || (g - 1) * (g - 1) < skillCount
  {
    CeilSqrtFrom(skillCount, 0)
  }

  /** There is exactly one ceiling square root, and `GridSize` computes it. */
  lemma GridSizeUnique(n: nat, g: nat)
    ensures IsCeilSqrt(n, g) <==> g == GridSize(n)
  {
    if IsCeilSqrt(n, g) {
      var h := GridSize(n);
      if g < h {
        SquareMonotone(g, h - 1);
      } else if h < g {
        SquareMonotone(h, g - 1);
      }
    }
  }

  /** An empty category needs no grid, a square count gets its exact root,
      and more skills never make the grid smaller. */
  lemma GridSizeProperties(m: nat, n: nat, k: nat)
    ensures GridSize(0) == 0
    ensures GridSize(k * k) == k
    ensures m <= n ==> GridSize(m) <= GridSize(n)
  {
    if k > 0 {
      SquareMonotone(k - 1, k);
    }
    GridSizeUnique(k * k, k);
    if m <= n && GridSize(m) > GridSize(n) {
      SquareMonotone(GridSize(n), GridSize(m) - 1);
    }
  }

  /** The side of a category's square container, in pixels: used both as
      its height and as its maximum width. */
  function ContainerSide(category: SkillCategory): (px: nat)
    ensures px % 180 == 0
    ensures IsCeilSqrt(|category.skills|, px / 180)
  {
    GridSize(|category.skills|) * 180
  }

  /** The categories in page order. */
  function SkillCategories(): (cs: seq<SkillCategory>)
    ensures |cs| == 4
    ensures forall i | 0 <= i < |cs| :: |cs[i].skills| > 0
  {
    [ SkillCategory("Languages", [
        Skill("C++", "#00599C"),
        Skill("TypeScript", "#3178C6"),
        Skill("JavaScript", "#F7DF1E"),
        Skill("Go", "#00ADD8"),
        Skill("Rust", "#E5C17A"),
        Skill("C", "#A8B9CC")]),
      SkillCategory("Frontend", [
        Skill("React.js", "#61DAFB"),
        Skill("Next.js", "#000000"),
        Skill("Tailwind CSS", "#06B6D4"),
        Skill("Shadcn UI", "#000000"),
        Skill("React Query", "#FF4154"),
        Skill("Framer Motion", "#06D6A0")]),
      SkillCategory("Backend", [
        Skill("Node.js", "#339933"),
        Skill("Express.js", "#000000"),
        Skill("WebSockets", "#010101"),
        Skill("PostgreSQL", "#4169E1"),
        Skill("MongoDB", "#47A248"),
        Skill("Redis", "#DC382D"),
        Skill("Prisma", "#2D3748"),
        Skill("RESTful APIs", "#FC6D26"),
        Skill("cloudflare", "#F38020"),
        Skill("supabase", "#F02D34"),
        Skill("clerk", "#4A4A4A")]),
      SkillCategory("DevOps & Cloud", [
        Skill("Docker", "#2496ED"),
        Skill("Kubernetes", "#326CE5"),
        Skill("Helm", "#0F1689"),
        Skill("Argo CD", "#EF7B4D"),
        Skill("Github Actions", "#2088FF"),
        Skill("vercel", "#ffffff"),
        Skill("istio", "#2088FF"),
        Skill("aws", "#4A4A4A")]) ]
  }

  /** Languages 6 skills in a 3-grid, Frontend 6 in a 3-grid, Backend 11 in
      a 4-grid, DevOps & Cloud 8 in a 3-grid. */
  lemma CategoryGrids()
    ensures |SkillCategories()| == 4
    ensures |SkillCategories()[0].skills| == 6 && GridSize(6) == 3
    ensures |SkillCategories()[1].skills| == 6
    ensures |SkillCategories()[2].skills| == 11 && GridSize(11) == 4
    ensures |SkillCategories()[3].skills| == 8 && GridSize(8) == 3
  {
    GridSizeUnique(6, 3);
    GridSizeUnique(11, 4);
    GridSizeUnique(8, 3);
  }

  /** The containers are 540, 540, 720 and 540 pixels on a side. */
  lemma CategoryContainers()
    ensures ContainerSide(SkillCategories()[0]) == 540
    ensures ContainerSide(SkillCategories()[1]) == 540
    ensures ContainerSide(SkillCategories()[2]) == 720
    ensures ContainerSide(SkillCategories()[3]) == 540
  {
    CategoryGrids();
  }

  /** The category titles, used as React keys, are distinct. */
  lemma CategoryTitlesDistinct()
    ensures forall i, j | 0 <= i < j < |SkillCategories()| ::
      SkillCategories()[i].title != SkillCategories()[j].title
  {
  }
}
