/** The seed data of the application's first run (src/db/db_schema.py,
    INITIAL_DATA_SQL), one value per INSERT statement, in the file's order. */
module SeedData {
  import opened Schema

  const SeedLanguages: seq<SeedStatement> := [
    SeedLanguage("Python"),
    SeedLanguage("JavaScript"),
    SeedLanguage("Java"),
    SeedLanguage("C#")
  ]

  /** The i-th category INSERT. */
  function CategorySeed(i: nat): SeedStatement
    requires i < 21
  {
    match i
    case 0 => SeedCategory("General",
                   "Covers fundamental and widely applicable programming concepts.")
    case 1 => SeedCategory("Data Structures",
                   "Snippets related to arrays, lists, dictionaries, sets, trees, graphs, queues, stacks, etc.")
    case 2 => SeedCategory("Algorithms",
                   "Sorting, searching, recursion, dynamic programming, graph algorithms, etc.")
    case 3 => SeedCategory("Database Operations",
                   "CRUD operations, connections, transactions, queries, migrations.")
    case 4 => SeedCategory("File Handling",
                   "Reading, writing, parsing, and manipulating files in various formats (e.g., CSV, JSON, XML).")
    case 5 => SeedCategory("Networking",
                   "HTTP requests, sockets, API consumption, web scraping.")
    case 6 => SeedCategory("Concurrency",
                   "Threads, asynchronous programming, parallel execution, locks, semaphores.")
    case 7 => SeedCategory("Testing",
                   "Unit tests, integration tests, mock objects, test-driven development snippets.")
    case 8 => SeedCategory("Debugging",
                   "Logging, profiling, debugging techniques, memory leak detection.")
    case 9 => SeedCategory("Security",
                   "Encryption, hashing, secure storage, XSS prevention, CSRF protection.")
    case 10 => SeedCategory("User Interface",
                   "UI components, layouts, event handling, responsive design.")
    case 11 => SeedCategory("Data Analysis",
                   "Pandas, NumPy, data visualization (Matplotlib, Seaborn).")
    case 12 => SeedCategory("Web Development",
                   "Flask, Django snippets.")
    case 13 => SeedCategory("Machine Learning",
                   "Scikit-learn, TensorFlow, PyTorch examples.")
    case 14 => SeedCategory("Frontend",
                   "React, Vue, Angular snippets.")
    case 15 => SeedCategory("Backend",
                   "Node.js, Express.js code examples.")
    case 16 => SeedCategory("Spring Framework",
                   "Dependency injection, Spring Boot applications, JPA.")
    case 17 => SeedCategory("Android Development",
                   "Activities, Services, Android UI components.")
    case 18 => SeedCategory(".NET Core",
                   "ASP.NET MVC, Entity Framework Core, middleware.")
    case 19 => SeedCategory("Game Development",
                   "Unity game development snippets.")
    case _ => SeedCategory("Windows Development",
                   "WPF, UWP examples.")
  }

  const SeedCategories: seq<SeedStatement> := seq(21, i requires 0 <= i < 21 => CategorySeed(i))

  const LanguageLinks: seq<SeedStatement> := [
    SeedLinks("Python", ["Data Analysis", "Web Development", "Machine Learning"]),
    SeedLinks("JavaScript", ["Frontend", "Backend"]),
    SeedLinks("Java", ["Spring Framework", "Android Development"]),
    SeedLinks("C#", [".NET Core", "Game Development", "Windows Development"])
  ]

  /** The i-th snippet INSERT. */
  function SnippetSeed(i: nat): SeedStatement
    requires i < 40
  {
    match i
    case 0 => SeedSnippet("Hello World",
                  "print(\"Hello, World!\")",
                  "Python", "General")
    case 1 => SeedSnippet("List Comprehension",
                  "squares = [x**2 for x in range(10)]",
                  "Python", "General")
    case 2 => SeedSnippet("Dictionary Comprehension",
                  "{x: x**2 for x in (2, 4, 6)}",
                  "Python", "General")
    case 3 => SeedSnippet("Function Definition",
                  "def greet(name):\n    return \"Hello, \" + name",
                  "Python", "General")
    case 4 => SeedSnippet("Lambda Function",
                  "double = lambda x: x * 2",
                  "Python", "General")
    case 5 => SeedSnippet("File Read",
                  "with open(\"file.txt\") as f:\n    content = f.read()",
                  "Python", "General")
    case 6 => SeedSnippet("JSON Parsing",
                  "import json\n\n# Parse JSON\ndata = json.loads('{\"name\": \"John\", \"age\": 30}')",
                  "Python", "General")
    case 7 => SeedSnippet("HTTP GET Request",
                  "import requests\n\nresponse = requests.get(\"https://api.example.com/\")\ndata = response.json()",
                  "Python", "General")
    case 8 => SeedSnippet("Class Definition",
                  "class MyClass:\n    x = 5",
                  "Python", "General")
    case 9 => SeedSnippet("Try Except",
                  "try:\n    print(x)\nexcept NameError:\n    print(\"Variable x is not defined\")",
                  "Python", "General")
    case 10 => SeedSnippet("Declaring Variables",
                  "let name = \"CodeKeeper\";\nconst YEAR_ESTABLISHED = 2024;\nvar isApplicationActive = true;",
                  "JavaScript", "General")
    case 11 => SeedSnippet("Basic Function",
                  "function greet(name) {\n  console.log(`Hello, ${name}!`);\n}\ngreet(\"User\");",
                  "JavaScript", "General")
    case 12 => SeedSnippet("Using Arrow Functions",
                  "const add = (a, b) => a + b;\nconsole.log(add(5, 3));",
                  "JavaScript", "General")
    case 13 => SeedSnippet("Working With Arrays",
                  "let fruits = [\"apple\", \"banana\", \"cherry\"];\nconsole.log(fruits.length);",
                  "JavaScript", "General")
    case 14 => SeedSnippet("Object Literals",
                  "const person = {\n  name: \"John Doe\",\n  age: 30\n};\nconsole.log(person.name);",
                  "JavaScript", "General")
    case 15 => SeedSnippet("Template Literals",
                  "let personName = \"John\";\nconsole.log(`Hello, ${personName}!`);",
                  "JavaScript", "General")
    case 16 => SeedSnippet("Destructuring Assignment",
                  "const user = { id: 100, name: \"John Doe\" };\nconst { id, name } = user;\nconsole.log(name);",
                  "JavaScript", "General")
    case 17 => SeedSnippet("Spread Operator",
                  "let parts = [\"shoulders\", \"knees\"];\nlet lyrics = [\"head\", ...parts, \"and\", \"toes\"];\nconsole.log(lyrics);",
                  "JavaScript", "General")
    case 18 => SeedSnippet("Promises",
                  "const myPromise = new Promise((resolve, reject) => {\n  let condition = true;\n  if (condition) {\n    resolve(\"Promise is resolved.\");\n  } else {\n    reject(\"Promise is rejected.\");\n  }\n});",
                  "JavaScript", "General")
    case 19 => SeedSnippet("Async/Await",
                  "async function fetchData() {\n  let data = await fetch(\"https://api.example.com\");\n  console.log(await data.json());\n}",
                  "JavaScript", "General")
    case 20 => SeedSnippet("Hello World",
                  "public class HelloWorld {\n    public static void main(String[] args) {\n        System.out.println(\"Hello, World!\");\n    }\n}",
                  "Java", "General")
    case 21 => SeedSnippet("Basic Class Definition",
                  "public class Bicycle {\n    int speed = 0;\n    void speedUp(int increment) {\n        speed += increment;\n    }\n}",
                  "Java", "General")
    case 22 => SeedSnippet("Interfaces",
                  "interface Animal {\n    public void eat();\n    public void travel();\n}",
                  "Java", "General")
    case 23 => SeedSnippet("Try-Catch",
                  "try {\n    int[] myNumbers = {1, 2, 3};\n    System.out.println(myNumbers[10]);\n} catch (Exception e) {\n    System.out.println(\"Something went wrong.\");\n}",
                  "Java", "General")
    case 24 => SeedSnippet("Generics",
                  "public class Box<T> {\n    private T t;\n    public void set(T t) { this.t = t; }\n    public T get() { return t; }\n}",
                  "Java", "General")
    case 25 => SeedSnippet("Enums",
                  "enum Level {\n    LOW,\n    MEDIUM,\n    HIGH\n}",
                  "Java", "General")
    case 26 => SeedSnippet("Lambda Expressions",
                  "List<String> names = Arrays.asList(\"John\", \"Doe\", \"Sarah\");\nnames.forEach(name -> System.out.println(name));",
                  "Java", "General")
    case 27 => SeedSnippet("Stream API",
                  "List<Integer> numbers = Arrays.asList(2, 3, 4, 5);\nList<Integer> square = numbers.stream().map(x -> x*x).collect(Collectors.toList());",
                  "Java", "General")
    case 28 => SeedSnippet("Multithreading",
                  "class MultiThreadDemo extends Thread {\n    public void run() {\n        System.out.println(\"Thread is running.\");\n    }\n}",
                  "Java", "General")
    case 29 => SeedSnippet("Annotations",
                  "@Override\npublic String toString() {\n    return \"Override example\";\n}",
                  "Java", "General")
    case 30 => SeedSnippet("Hello World",
                  "using System;\nclass Program {\n    static void Main(string[] args) {\n        Console.WriteLine(\"Hello, World!\");\n    }\n}",
                  "C#", "General")
    case 31 => SeedSnippet("Basic Class Definition",
                  "public class Bicycle {\n    public int Speed { get; set; } = 0;\n    public void SpeedUp(int increment) {\n Speed += increment;\n }\n}",
                  "C#", "General")
    case 32 => SeedSnippet("Interfaces",
                  "interface IAnimal {\n void Eat();\n void Travel();\n}",
                  "C#", "General")
    case 33 => SeedSnippet("Try-Catch",
                  "try {\n int[] myNumbers = new int[] {1, 2, 3};\n Console.WriteLine(myNumbers[10]);\n} catch (Exception e) {\n Console.WriteLine(\"Something went wrong.\");\n}",
                  "C#", "General")
    case 34 => SeedSnippet("Generics",
                  "public class Box<T> {\n private T content;\n public void SetContent(T content) {\n this.content = content;\n }\n public T GetContent() {\n return content;\n }\n}",
                  "C#", "General")
    case 35 => SeedSnippet("Enums",
                  "enum Level {\n Low,\n Medium,\n High\n}",
                  "C#", "General")
    case 36 => SeedSnippet("Lambda Expressions",
                  "List<string> names = new List<string> { \"John\", \"Doe\", \"Sarah\" };\nnames.ForEach(name => Console.WriteLine(name));",
                  "C#", "General")
    case 37 => SeedSnippet("LINQ",
                  "List<int> numbers = new List<int> { 2, 3, 4, 5 };\nvar squaredNumbers = numbers.Select(x => x * x).ToList();",
                  "C#", "General")
    case 38 => SeedSnippet("Async/Await",
                  "public async Task<string> GetWebContentAsync(string url) {\n using (HttpClient client = new HttpClient())\n {\n string content = await client.GetStringAsync(url);\n return content;\n }\n}",
                  "C#", "General")
    case _ => SeedSnippet("Attributes",
                  "[Serializable]\nclass MySerializableClass {\n // Class implementation\n}",
                  "C#", "General")
  }

  const SeedSnippets: seq<SeedStatement> := seq(40, i requires 0 <= i < 40 => SnippetSeed(i))

  /** The four groups in the order the dict lists them: languages,
      categories, language links, snippets. */
  const InitialData: seq<seq<SeedStatement>> := [SeedLanguages, SeedCategories, LanguageLinks, SeedSnippets]
}
